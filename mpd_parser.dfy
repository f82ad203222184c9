/** `parseMpd` after the XML parse: choose the video and the audio
    AdaptationSet, turn every Representation into a track whose urls are the
    SegmentList's Initialization and SegmentURLs (ISO/IEC 23009-1, section
    5.3.9) prefixed with the BaseURL, and order each track list by bitrate,
    highest first. The document is given as the tree the XML parser builds. */
module MpdParser {
  import opened Wrappers
  import opened JsText
  import JsArray

  /** An XML child as the parser gives it: missing, a single object, or an
      array when the element repeats. */
  datatype Children<T> = Absent | One(item: T) | Many(items: seq<T>)

  /** `initialization` is the Initialization element's `sourceURL` when that
      element is present; `segmentUrls` are the SegmentURL elements' `media`. */
  datatype SegmentList = SegmentList(initialization: Option<string>, segmentUrls: Children<string>)

  /** A Representation with its `id` and `bandwidth` attributes as text. */
  datatype Representation = Representation(id: string, bandwidth: string, baseUrl: string, segmentList: SegmentList)

  datatype AdaptationSet = AdaptationSet(mimeType: string, representations: Children<Representation>)

  /** `mpdType` is the MPD element's `type` attribute; `adaptationSets` the
      AdaptationSet children of its Period (Absent also when there is no
      single Period). */
  datatype Mpd = Mpd(mpdType: Option<string>, adaptationSets: Children<AdaptationSet>)

  datatype Track = Track(id: Num, bitrate: Num, urls: seq<string>)

  datatype ParseResult = ParseResult(videoTracks: seq<Track>, audioTracks: seq<Track>, rawMpd: Mpd)

  /** The TypeErrors the tree walk can run into. */
  datatype MpdError =
    | AdaptationSetsNotArray   // `find` on something that is not an array
    | NoVideoAdaptation        // `.Representation` of undefined
    | NoAudioAdaptation
    | NoRepresentation         // `[undefined]`, then `.attr` of undefined
    | SegmentUrlsNotArray      // `for ... of` over a single object or undefined

  predicate IsVideoSet(a: AdaptationSet) { StartsWith(a.mimeType, "video") }
  predicate IsAudioSet(a: AdaptationSet) { StartsWith(a.mimeType, "audio") }

  /** A single Representation is taken as a list of one. */
  function RepresentationList(a: AdaptationSet): (r: Option<seq<Representation>>)
    ensures a.representations.One? ==> r == Some([a.representations.item])
    ensures a.representations.Many? ==> r == Some(a.representations.items)
    ensures a.representations.Absent? <==> r.None?
  {
    match a.representations
    case Absent => None
    case One(rep) => Some([rep])
    case Many(reps) => Some(reps)
  }

  predicate HasSegmentArray(rep: Representation) {
    rep.segmentList.segmentUrls.Many?
  }

  /** The track a Representation describes. */
  function TrackOf(rep: Representation): Track
    requires HasSegmentArray(rep)
  {
    var base := rep.baseUrl;
    var init := rep.segmentList.initialization;
    var media := rep.segmentList.segmentUrls.items;
    Track(ParseInt(rep.id), ParseInt(rep.bandwidth),
          (if init.Some? then [base + init.value] else [])
          + seq(|media|, k requires 0 <= k < |media| => base + media[k]))
  }

  /** A track's urls: the initialization segment first when there is one,
      then every SegmentURL in document order, each prefixed by the BaseURL. */
  lemma TrackUrlsOrder(rep: Representation)
    requires HasSegmentArray(rep)
    ensures var t := TrackOf(rep);
            var off := if rep.segmentList.initialization.Some? then 1 else 0;
            var media := rep.segmentList.segmentUrls.items;
            && |t.urls| == off + |media|
            && (off == 1 ==> t.urls[0] == rep.baseUrl + rep.segmentList.initialization.value)
            && forall k :: 0 <= k < |media| ==> t.urls[off + k] == rep.baseUrl + media[k]
  {
  }

  /** The track-building loop of one Representation. */
  method BuildTrack(rep: Representation) returns (r: Result<Track, MpdError>)
    ensures r.Ok? <==> HasSegmentArray(rep)
    ensures r.Ok? ==> r.value == TrackOf(rep)
  {
    var urls: seq<string> := [];
    var base := rep.baseUrl;
    if rep.segmentList.initialization.Some? {
      urls := urls + [base + rep.segmentList.initialization.value];
    }
    if !rep.segmentList.segmentUrls.Many? {
      return Err(SegmentUrlsNotArray);
    }
    var media := rep.segmentList.segmentUrls.items;
    var prefix := urls;
    for k := 0 to |media|
      invariant urls == prefix + seq(k, j requires 0 <= j < k => base + media[j])
    {
      urls := urls + [base + media[k]];
    }
    r := Ok(Track(ParseInt(rep.id), ParseInt(rep.bandwidth), urls));
  }

  predicate AllHaveSegmentArrays(reps: seq<Representation>) {
    forall i :: 0 <= i < |reps| ==> HasSegmentArray(reps[i])
  }

  function TracksOf(reps: seq<Representation>): (ts: seq<Track>)
    requires AllHaveSegmentArrays(reps)
    ensures |ts| == |reps|
  {
    seq(|reps|, i requires 0 <= i < |reps| => TrackOf(reps[i]))
  }

  /** One track per Representation, in document order. */
  method BuildTracks(reps: seq<Representation>) returns (r: Result<seq<Track>, MpdError>)
    ensures r.Ok? <==> AllHaveSegmentArrays(reps)
    ensures r.Ok? ==> r.value == TracksOf(reps)
  {
    var tracks: seq<Track> := [];
    for i := 0 to |reps|
      invariant |tracks| == i
      invariant forall j :: 0 <= j < i ==> HasSegmentArray(reps[j]) && tracks[j] == TrackOf(reps[j])
    {
      var t := BuildTrack(reps[i]);
      if t.Err? {
        return Err(t.error);
      }
      tracks := tracks + [t.value];
    }
    r := Ok(tracks);
  }

  /** The comparator `(a, b) => b.bitrate - a.bitrate` is negative. */
  predicate BitrateBefore(a: Track, b: Track) {
    a.bitrate.Num? && b.bitrate.Num? && b.bitrate.n - a.bitrate.n < 0
  }

  function SortByBitrate(ts: seq<Track>): seq<Track> {
    JsArray.SortBy(ts, BitrateBefore)
  }

  predicate AllBitratesKnown(ts: seq<Track>) {
    forall i :: 0 <= i < |ts| ==> ts[i].bitrate.Num?
  }

  /** The bitrate sort keeps every track and, when every bitrate is a number,
      puts the highest bitrate first. (With a NaN bitrate the comparator is
      inconsistent and the order is left to the engine.) */
  lemma SortByBitrateDescending(ts: seq<Track>)
    ensures multiset(SortByBitrate(ts)) == multiset(ts)
    ensures AllBitratesKnown(ts) ==>
      var r := SortByBitrate(ts);
      AllBitratesKnown(r) && forall i, j :: 0 <= i < j < |r| ==> r[i].bitrate.n >= r[j].bitrate.n
  {
    if AllBitratesKnown(ts) {
      var key := (t: Track) => if t.bitrate.Num? then -t.bitrate.n else 0;
      forall x, y | x in ts && y in ts ensures BitrateBefore(x, y) <==> key(x) < key(y) {
      }
      JsArray.SortBySorted(ts, BitrateBefore, key);
      var r := SortByBitrate(ts);
      forall i | 0 <= i < |r| ensures r[i].bitrate.Num? {
        assert r[i] in multiset(ts);
      }
    }
  }

  ghost predicate Parseable(mpd: Mpd) {
    && mpd.adaptationSets.Many?
    && var sets := mpd.adaptationSets.items;
    && var v := JsArray.Find(sets, IsVideoSet);
    && var a := JsArray.Find(sets, IsAudioSet);
    && v.Some? && a.Some?
    && RepresentationList(v.value).Some? && AllHaveSegmentArrays(RepresentationList(v.value).value)
    && RepresentationList(a.value).Some? && AllHaveSegmentArrays(RepresentationList(a.value).value)
  }

  ghost function VideoSet(mpd: Mpd): AdaptationSet
    requires Parseable(mpd)
  {
    JsArray.Find(mpd.adaptationSets.items, IsVideoSet).value
  }

  ghost function AudioSet(mpd: Mpd): AdaptationSet
    requires Parseable(mpd)
  {
    JsArray.Find(mpd.adaptationSets.items, IsAudioSet).value
  }

  /** `parseMpd` from the parsed tree. */
  method ParseMpd(mpd: Mpd) returns (r: Result<ParseResult, MpdError>)
    ensures r.Ok? <==> Parseable(mpd)
    ensures r.Ok? ==> r.value.rawMpd == mpd
    ensures r.Ok? ==>
      r.value.videoTracks == SortByBitrate(TracksOf(RepresentationList(VideoSet(mpd)).value))
    ensures r.Ok? ==>
      r.value.audioTracks == SortByBitrate(TracksOf(RepresentationList(AudioSet(mpd)).value))
  {
    if !mpd.adaptationSets.Many? {
      return Err(AdaptationSetsNotArray);
    }
    var sets := mpd.adaptationSets.items;
    var videoAdaptation := JsArray.Find(sets, IsVideoSet);
    var audioAdaptation := JsArray.Find(sets, IsAudioSet);
    if videoAdaptation.None? {
      return Err(NoVideoAdaptation);
    }
    var videoReps := RepresentationList(videoAdaptation.value);
    if videoReps.None? {
      return Err(NoRepresentation);
    }
    var videoTracks := BuildTracks(videoReps.value);
    if videoTracks.Err? {
      return Err(videoTracks.error);
    }
    if audioAdaptation.None? {
      return Err(NoAudioAdaptation);
    }
    var audioReps := RepresentationList(audioAdaptation.value);
    if audioReps.None? {
      return Err(NoRepresentation);
    }
    var audioTracks := BuildTracks(audioReps.value);
    if audioTracks.Err? {
      return Err(audioTracks.error);
    }
    r := Ok(ParseResult(SortByBitrate(videoTracks.value), SortByBitrate(audioTracks.value), mpd));
  }

  /** The video track list comes from the first AdaptationSet whose mimeType
      starts with "video", and likewise for audio. */
  lemma AdaptationChoice(mpd: Mpd)
    requires Parseable(mpd)
    ensures exists i :: (0 <= i < |mpd.adaptationSets.items|
      && mpd.adaptationSets.items[i] == VideoSet(mpd) && IsVideoSet(VideoSet(mpd))
      && forall j :: 0 <= j < i ==> !IsVideoSet(mpd.adaptationSets.items[j]))
    ensures exists i :: (0 <= i < |mpd.adaptationSets.items|
      && mpd.adaptationSets.items[i] == AudioSet(mpd) && IsAudioSet(AudioSet(mpd))
      && forall j :: 0 <= j < i ==> !IsAudioSet(mpd.adaptationSets.items[j]))
  {
  }
}
