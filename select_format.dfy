/** `selectFormat`: pick one video and one audio track from a parsed manifest,
    either the first of each list or the first whose id appears in a
    "+"-separated list of ids. */
module SelectFormat {
  import opened Wrappers
  import opened JsText
  import JsArray
  import opened MpdParser

  /** The selected tracks; `None` stands for undefined (an empty list). */
  datatype Selection = Selection(video: Option<Track>, audio: Option<Track>)

  /** `tracks[0]`, or undefined for an empty list. */
  function First(tracks: seq<Track>): (r: Option<Track>)
    ensures r.Some? <==> |tracks| > 0
    ensures r.Some? ==> r.value == tracks[0]
  {
    if |tracks| > 0 then Some(tracks[0]) else None
  }

  /** `format.split("+").map((f) => parseInt(f))`. */
  function FormatIds(format: string): (ids: seq<Num>)
    ensures |ids| == |Split(format, '+')|
    ensures forall k :: 0 <= k < |ids| ==> ids[k] == ParseInt(Split(format, '+')[k])
  {
    var parts := Split(format, '+');
    seq(|parts|, k requires 0 <= k < |parts| => ParseInt(parts[k]))
  }

  /** `formatArr.includes(track.id)`; a NaN id matches a NaN entry
      (SameValueZero). */
  function Wanted(ids: seq<Num>): Track -> bool {
    (t: Track) => t.id in ids
  }

  /** `find` over the list by id, falling back to the first track. */
  function Choose(tracks: seq<Track>, ids: seq<Num>): Option<Track> {
    var found := JsArray.Find(tracks, Wanted(ids));
    if found.Some? then found else First(tracks)
  }

  /** `selectFormat`. An absent format is given as `""`, which is falsy just
      like undefined. */
  function Select(format: string, videoTracks: seq<Track>, audioTracks: seq<Track>): (r: Selection)
    ensures r.video.Some? <==> |videoTracks| > 0
    ensures r.audio.Some? <==> |audioTracks| > 0
    ensures r.video.Some? ==> r.video.value in videoTracks
    ensures r.audio.Some? ==> r.audio.value in audioTracks
  {
    if format == "" then Selection(First(videoTracks), First(audioTracks))
    else
      var ids := FormatIds(format);
      Selection(Choose(videoTracks, ids), Choose(audioTracks, ids))
  }

  /** Without a format the best (first) track of each list is taken. */
  lemma SelectNoFormat(videoTracks: seq<Track>, audioTracks: seq<Track>)
    ensures Select("", videoTracks, audioTracks) == Selection(First(videoTracks), First(audioTracks))
  {
  }

  /** With a format, the chosen track is the first one in list order whose id
      the format names; when none is named, the first track of the list. */
  lemma {:induction false} ChooseFirstNamed(tracks: seq<Track>, ids: seq<Num>)
    ensures (exists i :: 0 <= i < |tracks| && tracks[i].id in ids) ==>
      exists i :: 0 <= i < |tracks| && Choose(tracks, ids) == Some(tracks[i])
        && tracks[i].id in ids && forall j :: 0 <= j < i ==> tracks[j].id !in ids
    ensures (forall i :: 0 <= i < |tracks| ==> tracks[i].id !in ids) ==>
      Choose(tracks, ids) == First(tracks)
  {
    var found := JsArray.Find(tracks, Wanted(ids));
    if exists i :: 0 <= i < |tracks| && tracks[i].id in ids {
      var i :| 0 <= i < |tracks| && tracks[i].id in ids;
      assert Wanted(ids)(tracks[i]);
      var k :| 0 <= k < |tracks| && tracks[k] == found.value && Wanted(ids)(tracks[k])
             && forall j :: 0 <= j < k ==> !Wanted(ids)(tracks[j]);
      assert Choose(tracks, ids) == Some(tracks[k]);
    } else {
      assert forall i :: 0 <= i < |tracks| ==> !Wanted(ids)(tracks[i]);
    }
  }

  /** The video and the audio choice are made independently: each depends only
      on the format and its own list. */
  lemma SelectIndependent(format: string, v: seq<Track>, a1: seq<Track>, a2: seq<Track>)
    ensures Select(format, v, a1).video == Select(format, v, a2).video
  {
  }

  /** `find` gives the same answer for two predicates that agree on the list. */
  lemma {:induction false} FindIndexAgrees(tracks: seq<Track>, p: Track -> bool, q: Track -> bool)
    requires forall i :: 0 <= i < |tracks| ==> p(tracks[i]) == q(tracks[i])
    ensures JsArray.FindIndex(tracks, p) == JsArray.FindIndex(tracks, q)
    decreases |tracks|
  {
    if tracks != [] {
      FindIndexAgrees(tracks[1..], p, q);
    }
  }

  /** Only which ids the format names matters, not their order or repetition. */
  lemma ChooseByIdSet(tracks: seq<Track>, ids1: seq<Num>, ids2: seq<Num>)
    requires forall x :: x in ids1 <==> x in ids2
    ensures Choose(tracks, ids1) == Choose(tracks, ids2)
  {
    FindIndexAgrees(tracks, Wanted(ids1), Wanted(ids2));
  }

  /** Two "+"-free parts give the list of their two parsed ids. */
  lemma FormatIdsOfPair(x: string, y: string)
    requires '+' !in x && '+' !in y
    ensures FormatIds(x + "+" + y) == [ParseInt(x), ParseInt(y)]
  {
    SplitAfterPiece(x, y, '+');
    SplitFree(y, '+');
  }

  /** Writing two ids the other way round selects the same tracks. */
  lemma SelectSwap(x: string, y: string, videoTracks: seq<Track>, audioTracks: seq<Track>)
    requires '+' !in x && '+' !in y
    ensures Select(x + "+" + y, videoTracks, audioTracks) == Select(y + "+" + x, videoTracks, audioTracks)
  {
    FormatIdsOfPair(x, y);
    FormatIdsOfPair(y, x);
    var xy := FormatIds(x + "+" + y);
    var yx := FormatIds(y + "+" + x);
    ChooseByIdSet(videoTracks, xy, yx);
    ChooseByIdSet(audioTracks, xy, yx);
  }
}
