/**
 * The catalog of js/AudioPlayer/index.js as values: the track descriptors
 * the player is built from, the loaded tracks, the media element each track
 * plays through, and the pure list operations the handlers rely on (lookup by
 * id, the DOM neighbours used by next and prev, the search filter).
 */
module Playlist {
  import opened Options
  import opened Text

  /** The identifier crypto.randomUUID gives a track; only equality matters. */
  datatype TrackId = TrackId(uuid: nat)

  /** One entry of the fixed input list: name, author, directory url, thumbnail flag. */
  datatype TrackData = TrackData(name: string, author: string, url: string, hasThumb: bool)

  /**
   * The media element (`new Audio(url)`) of a track. Times are whole seconds
   * and the volume is a percentage (0..100) instead of a fraction 0..1.
   */
  class AudioElement {
    const src: string
    const duration: nat
    var currentTime: nat
    var volume: nat
    var paused: bool

    /** A freshly loaded element: at the start, full volume, paused. */
    constructor (src: string, duration: nat)
      ensures this.src == src && this.duration == duration
      ensures currentTime == 0 && volume == 100 && paused
    {
      this.src := src;
      this.duration := duration;
      currentTime := 0;
      volume := 100;
      paused := true;
    }

    /** play(): playback starts when the platform allows it; otherwise nothing changes. */
    method Play(succeeds: bool)
      modifies this
      ensures paused == (old(paused) && !succeeds)
      ensures currentTime == old(currentTime) && volume == old(volume)
    {
      if succeeds {
        paused := false;
      }
    }

    /** pause() */
    method Pause()
      modifies this
      ensures paused
      ensures currentTime == old(currentTime) && volume == old(volume)
    {
      paused := true;
    }
  }

  /** A catalog entry: the input descriptor spread out, plus its id, media url, thumbnail url, duration and element. */
  datatype Track = Track(
    id: TrackId,
    name: string,
    author: string,
    hasThumb: bool,
    url: string,
    thumbUrl: Option<string>,
    duration: nat,
    audio: AudioElement)

  /** The entry initAudios builds for input `data` once its element has loaded. */
  function NewTrack(data: TrackData, id: TrackId, audio: AudioElement): Track {
    Track(id, data.name, data.author, data.hasThumb, data.url + "/audio.mp3",
      if data.hasThumb then Some(data.url + "/thumb.jpg") else None,
      audio.duration, audio)
  }

  /**
   * What the loader is given besides the inputs: the id and the loaded
   * duration of each input, and the order in which their loadeddata events
   * fire. Only runs in which every load fires are described: if one never
   * does, Promise.all in initAudios never settles and the player is never
   * set up, so there is no catalog to model.
   */
  predicate LoadPlan(audioData: seq<TrackData>, ids: seq<TrackId>, durations: seq<nat>, order: seq<nat>) {
    && |ids| == |audioData| && |durations| == |audioData| && |order| == |audioData|
    && (forall k :: 0 <= k < |order| ==> order[k] < |audioData|)
    && (forall i :: 0 <= i < |audioData| ==> i in order)
    && (forall i, j :: 0 <= i < j < |ids| ==> ids[i] != ids[j])
  }

  /** Entry `t` comes from input `data`, with the given id and loaded duration. */
  predicate EntryFrom(t: Track, data: TrackData, id: TrackId, duration: nat) {
    && t.id == id && t.name == data.name && t.author == data.author && t.hasThumb == data.hasThumb
    && t.url == data.url + "/audio.mp3"
    && (data.hasThumb ==> t.thumbUrl == Some(data.url + "/thumb.jpg"))
    && (!data.hasThumb ==> t.thumbUrl == None)
    && t.duration == duration && t.audio.duration == duration && t.audio.src == t.url
  }

  predicate HasId(s: seq<Track>, id: TrackId) {
    exists i :: 0 <= i < |s| && s[i].id == id
  }

  /** No two entries share an id. */
  predicate DistinctIds(s: seq<Track>) {
    forall i, j :: 0 <= i < j < |s| ==> s[i].id != s[j].id
  }

  /** No two entries share a media element. */
  predicate DistinctElements(s: seq<Track>) {
    forall i, j :: 0 <= i < j < |s| ==> s[i].audio != s[j].audio
  }

  /** `r` is `s` with some entries left out and the rest kept in order. */
  predicate IsSubseq<T(==)>(r: seq<T>, s: seq<T>)
    decreases |s|
  {
    r == [] || (s != [] && ((r[0] == s[0] && IsSubseq(r[1..], s[1..])) || IsSubseq(r, s[1..])))
  }

  lemma {:induction false} SubseqOfItself<T>(s: seq<T>)
    ensures IsSubseq(s, s)
    decreases |s|
  {
    if s != [] {
      SubseqOfItself(s[1..]);
    }
  }

  lemma {:induction false} SubseqMembers<T>(r: seq<T>, s: seq<T>)
    requires IsSubseq(r, s)
    ensures forall x :: x in r ==> x in s
    decreases |s|
  {
    if r != [] {
      if r[0] == s[0] && IsSubseq(r[1..], s[1..]) {
        SubseqMembers(r[1..], s[1..]);
        forall x | x in r ensures x in s {
          if x != r[0] {
            assert x in r[1..];
          }
        }
      } else {
        SubseqMembers(r, s[1..]);
      }
    }
  }

  /** Leaving entries out keeps the ids distinct. */
  lemma {:induction false} SubseqDistinctIds(r: seq<Track>, s: seq<Track>)
    requires IsSubseq(r, s) && DistinctIds(s)
    ensures DistinctIds(r)
    decreases |s|
  {
    if r != [] {
      assert DistinctIds(s[1..]);
      if r[0] == s[0] && IsSubseq(r[1..], s[1..]) {
        SubseqDistinctIds(r[1..], s[1..]);
        SubseqMembers(r[1..], s[1..]);
        forall j | 0 < j < |r| ensures r[0].id != r[j].id {
          assert r[j] in r[1..];
          var k :| 0 <= k < |s[1..]| && s[1..][k] == r[j];
          assert s[k + 1] == r[j];
        }
      } else {
        SubseqDistinctIds(r, s[1..]);
      }
    }
  }

  /** Array.prototype.find by id: the first entry with that id, if any. */
  function FindById(s: seq<Track>, id: TrackId): (r: Option<Track>)
    ensures r.Some? <==> HasId(s, id)
    ensures r.Some? ==> r.value in s && r.value.id == id
  {
    if s == [] then None
    else if s[0].id == id then Some(s[0])
    else
      var r := FindById(s[1..], id);
      assert HasId(s[1..], id) ==> HasId(s, id) by {
        if HasId(s[1..], id) {
          var i :| 0 <= i < |s[1..]| && s[1..][i].id == id;
          assert s[i + 1].id == id;
        }
      }
      assert HasId(s, id) ==> HasId(s[1..], id) by {
        if HasId(s, id) {
          var i :| 0 <= i < |s| && s[i].id == id;
          assert s[1..][i - 1].id == id;
        }
      }
      r
  }

  /** find returns the first entry with the id: the one at IndexOfId. */
  lemma {:induction false} FindByIdFirst(s: seq<Track>, id: TrackId)
    requires HasId(s, id)
    ensures FindById(s, id) == Some(s[IndexOfId(s, id)])
  {
    if s[0].id != id {
      assert HasId(s[1..], id) by {
        var i :| 0 <= i < |s| && s[i].id == id;
        assert s[1..][i - 1].id == id;
      }
      FindByIdFirst(s[1..], id);
      assert s[1..][IndexOfId(s[1..], id)] == s[IndexOfId(s, id)];
    }
  }

  /** With distinct ids the lookup finds exactly the entry carrying the id. */
  lemma FindByIdDistinct(s: seq<Track>, t: Track)
    requires DistinctIds(s) && t in s
    ensures FindById(s, t.id) == Some(t)
  {
    var r := FindById(s, t.id);
    var i :| 0 <= i < |s| && s[i] == t;
    var j :| 0 <= j < |s| && s[j] == r.value;
    assert i == j;
  }

  /** The position of the first entry with the id (querySelector on data-id). */
  function IndexOfId(s: seq<Track>, id: TrackId): (i: nat)
    requires HasId(s, id)
    ensures i < |s| && s[i].id == id
    ensures forall j :: 0 <= j < i ==> s[j].id != id
  {
    if s[0].id == id then 0
    else
      assert HasId(s[1..], id) by {
        var i :| 0 <= i < |s| && s[i].id == id;
        assert s[1..][i - 1].id == id;
      }
      1 + IndexOfId(s[1..], id)
  }

  /** handleNext's choice: the next sibling of the entry with the id, or the first entry after the last. */
  function NextOf(list: seq<Track>, id: TrackId): (r: Track)
    requires HasId(list, id)
    ensures r in list
    ensures DistinctIds(list) && |list| > 1 ==> r.id != id
  {
    var i := IndexOfId(list, id);
    if i + 1 < |list| then list[i + 1] else list[0]
  }

  /** handlePrev's choice: the previous sibling of the entry with the id, or the last entry before the first. */
  function PrevOf(list: seq<Track>, id: TrackId): (r: Track)
    requires HasId(list, id)
    ensures r in list
    ensures DistinctIds(list) && |list| > 1 ==> r.id != id
  {
    var i := IndexOfId(list, id);
    if i > 0 then list[i - 1] else list[|list| - 1]
  }

  /** Next and prev step one place forward and backward, cyclically. */
  lemma NeighboursAt(list: seq<Track>, k: nat)
    requires DistinctIds(list) && k < |list|
    ensures HasId(list, list[k].id)
    ensures NextOf(list, list[k].id) == list[(k + 1) % |list|]
    ensures PrevOf(list, list[k].id) == list[(k + |list| - 1) % |list|]
  {
    assert HasId(list, list[k].id);
    var i := IndexOfId(list, list[k].id);
    assert i == k;
    ModStep(k, |list|);
  }

  lemma ModStep(k: nat, n: nat)
    requires k < n
    ensures (k + 1) % n == if k + 1 < n then k + 1 else 0
    ensures (k + n - 1) % n == if k > 0 then k - 1 else n - 1
  {
  }

  /** Wrap-around at both ends: next of the last is the first, prev of the first is the last. */
  lemma WrapAround(list: seq<Track>)
    requires DistinctIds(list) && list != []
    ensures NextOf(list, list[|list| - 1].id) == list[0]
    ensures PrevOf(list, list[0].id) == list[|list| - 1]
  {
    NeighboursAt(list, |list| - 1);
    NeighboursAt(list, 0);
  }

  /** Over an unchanged list, next then prev (and prev then next) is back where it started. */
  lemma NextPrevRoundTrip(list: seq<Track>, t: Track)
    requires DistinctIds(list) && t in list
    ensures HasId(list, t.id)
    ensures PrevOf(list, NextOf(list, t.id).id) == t
    ensures NextOf(list, PrevOf(list, t.id).id) == t
  {
    var n := |list|;
    var k :| 0 <= k < n && list[k] == t;
    var a := if k + 1 < n then k + 1 else 0;
    var b := if k > 0 then k - 1 else n - 1;
    NeighboursAt(list, k);
    ModStep(k, n);
    assert NextOf(list, t.id) == list[a] && PrevOf(list, t.id) == list[b];
    NeighboursAt(list, a);
    ModStep(a, n);
    NeighboursAt(list, b);
    ModStep(b, n);
  }

  /** The filter test of handleSearch: the normalised name includes the normalised query. */
  predicate Matches(t: Track, query: string)
    ensures Matches(t, query) ==> |Trim(query)| <= |Trim(t.name)|
  {
    Contains(Normalize(t.name), Normalize(query))
  }

  /** audios.filter(...) of handleSearch: the matching entries, in catalog order. */
  function Filter(s: seq<Track>, query: string): (r: seq<Track>)
    ensures IsSubseq(r, s)
  {
    if s == [] then []
    else if Matches(s[0], query) then [s[0]] + Filter(s[1..], query)
    else Filter(s[1..], query)
  }

  /** The filter keeps exactly the matching entries: every kept one matches, and every matching one is kept. */
  lemma {:induction false} FilterSelects(s: seq<Track>, query: string)
    ensures forall i :: 0 <= i < |Filter(s, query)| ==> Filter(s, query)[i] in s && Matches(Filter(s, query)[i], query)
    ensures forall i :: 0 <= i < |s| && Matches(s[i], query) ==> s[i] in Filter(s, query)
  {
    if s != [] {
      FilterSelects(s[1..], query);
      var r := Filter(s, query);
      var rest := Filter(s[1..], query);
      forall i | 0 <= i < |r| ensures r[i] in s && Matches(r[i], query) {
        if Matches(s[0], query) && i > 0 {
          assert r[i] == rest[i - 1];
        }
      }
      forall i | 0 <= i < |s| && Matches(s[i], query) ensures s[i] in r {
        if i > 0 {
          assert s[i] == s[1..][i - 1];
        }
      }
    }
  }

  /** A query that trims to nothing keeps every entry, in order. */
  lemma {:induction false} FilterBlankQuery(s: seq<Track>, query: string)
    requires Trim(query) == ""
    ensures Filter(s, query) == s
  {
    if s != [] {
      ContainsEmpty(Normalize(s[0].name));
      FilterBlankQuery(s[1..], query);
    }
  }

  /** The two-track catalog of js/main.js: "roy" keeps Royalty only, "" keeps both. */
  lemma FilterExample(royalty: Track, explorer: Track)
    requires royalty.name == "Royalty" && explorer.name == "Explorer"
    ensures Filter([royalty, explorer], "roy") == [royalty]
    ensures Filter([royalty, explorer], "") == [royalty, explorer]
  {
    assert Matches(royalty, "roy") by {
      NormalizeRoyalty();
      NormalizeRoy();
      assert StartsWith("royalty", "roy");
    }
    assert !Matches(explorer, "roy") by {
      NormalizeExplorer();
      NormalizeRoy();
      ExplorerLacksRoy();
    }
    FilterPair(royalty, explorer, "roy");
    BlankExample([royalty, explorer]);
  }

  lemma BlankExample(s: seq<Track>)
    ensures Filter(s, "") == s
  {
    assert Trim("") == "" by {
      assert TrimStart("") == "";
    }
    FilterBlankQuery(s, "");
  }

  lemma FilterPair(a: Track, b: Track, query: string)
    requires Matches(a, query) && !Matches(b, query)
    ensures Filter([a, b], query) == [a]
  {
    assert [a, b][1..] == [b];
    assert [b][1..] == [];
  }
}
