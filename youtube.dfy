/** `YouTubeService`: the video id read from a watch or short-link URL, and the
    stream facts `getVideoInfo` derives from the player response embedded in
    the watch page. The HTTP request and the scraping of the page are left
    out: the page is an input, already reduced to the player response. */
module YouTube {
  import opened Wrappers
  import opened JsText

  // ---------------------------------------------------------------------------
  // getVideoIdByUrl
  // ---------------------------------------------------------------------------

  /** The two regular expressions, both with the `i` and `m` flags:
      `v=(.+?)(&|$)` and `youtu.be\/(.+?)(&|$)`. */
  datatype UrlPattern = WatchParam | ShortLink

  function HeadLength(pat: UrlPattern): nat {
    if pat == WatchParam then 2 else 9
  }

  /** `c` equals the lower-case ASCII letter `lower` ignoring case. */
  predicate SameLetter(c: char, lower: char)
    requires 'a' <= lower <= 'z'
  {
    c == lower || c as int == lower as int - 32
  }

  /** The part of the pattern before the group matches at `p`. (`.` in
      `youtu.be` is any character but a line terminator.) */
  predicate HeadAt(s: string, p: nat, pat: UrlPattern) {
    match pat
    case WatchParam =>
      p + 2 <= |s| && SameLetter(s[p], 'v') && s[p + 1] == '='
    case ShortLink =>
      && p + 9 <= |s|
      && SameLetter(s[p], 'y') && SameLetter(s[p + 1], 'o') && SameLetter(s[p + 2], 'u')
      && SameLetter(s[p + 3], 't') && SameLetter(s[p + 4], 'u') && !IsLineTerminator(s[p + 5])
      && SameLetter(s[p + 6], 'b') && SameLetter(s[p + 7], 'e') && s[p + 8] == '/'
  }

  /** Where the lazy group `(.+?)` may stop: before `&`, a line terminator
      (`$` in multiline mode) or the end. */
  predicate StopsAt(s: string, j: nat)
    requires j <= |s|
  {
    j == |s| || s[j] == '&' || IsLineTerminator(s[j])
  }

  /** The whole pattern matches at `p`: the group takes at least one character
      that is not a line terminator, and then stops at the first stop point. */
  predicate MatchesAt(s: string, p: nat, pat: UrlPattern) {
    HeadAt(s, p, pat) && p + HeadLength(pat) < |s| && !IsLineTerminator(s[p + HeadLength(pat)])
  }

  /** The first stop point at or after `j`. */
  function StopFrom(s: string, j: nat): (r: nat)
    requires j <= |s|
    ensures j <= r <= |s| && StopsAt(s, r)
    ensures forall i :: j <= i < r ==> !StopsAt(s, i)
    decreases |s| - j
  {
    if StopsAt(s, j) then j else StopFrom(s, j + 1)
  }

  /** Group 1 of the match at `p`. */
  function Capture(s: string, p: nat, pat: UrlPattern): (id: string)
    requires MatchesAt(s, p, pat)
    ensures |id| >= 1
  {
    var k := p + HeadLength(pat);
    s[k..StopFrom(s, k + 1)]
  }

  /** The leftmost match at or after `from`. */
  function FirstMatch(s: string, pat: UrlPattern, from: nat): (r: Option<nat>)
    ensures r.Some? ==> from <= r.value && MatchesAt(s, r.value, pat)
    ensures r.Some? ==> forall q :: from <= q < r.value ==> !MatchesAt(s, q, pat)
    ensures r.None? ==> forall q :: from <= q ==> !MatchesAt(s, q, pat)
    decreases |s| - from
  {
    if from >= |s| then None
    else if MatchesAt(s, from, pat) then Some(from)
    else FirstMatch(s, pat, from + 1)
  }

  /** `url.match(re)[1]`; a failed match is `null[1]`, a TypeError. */
  function MatchId(url: string, pat: UrlPattern): Result<string, IdError> {
    var m := FirstMatch(url, pat, 0);
    if m.Some? then Ok(Capture(url, m.value, pat)) else Err(IdTypeError)
  }

  datatype IdError = IdParseError | IdTypeError

  function GetVideoIdByUrl(url: string): (r: Result<string, IdError>)
    ensures url == "" ==> r == Err(IdParseError)
    ensures r == Err(IdParseError) <==>
      url == "" || (!Contains(url, "youtube.com") && !Contains(url, "youtu.be"))
  {
    if url == "" then Err(IdParseError)
    else if Contains(url, "youtube.com") then MatchId(url, WatchParam)
    else if Contains(url, "youtu.be") then MatchId(url, ShortLink)
    else Err(IdParseError)
  }

  /** The pattern the host test selects. */
  function PatternFor(url: string): UrlPattern {
    if Contains(url, "youtube.com") then WatchParam else ShortLink
  }

  /** The host test chooses the pattern, "youtube.com" first; the id is the
      group of the leftmost match, and a URL naming a host but not matching
      its pattern is a TypeError. */
  lemma GetVideoIdChoice(url: string)
    requires url != ""
    ensures Contains(url, "youtube.com") ==> GetVideoIdByUrl(url) == MatchId(url, WatchParam)
    ensures !Contains(url, "youtube.com") && Contains(url, "youtu.be") ==>
      GetVideoIdByUrl(url) == MatchId(url, ShortLink)
    ensures (Contains(url, "youtube.com") || Contains(url, "youtu.be")) ==>
      (GetVideoIdByUrl(url) == Err(IdTypeError) <==>
        forall q :: !MatchesAt(url, q, PatternFor(url)))
  {
    var pat := PatternFor(url);
    if Contains(url, "youtube.com") || Contains(url, "youtu.be") {
      if forall q :: !MatchesAt(url, q, pat) {
        assert FirstMatch(url, pat, 0).None?;
      }
    }
  }

  /** `id` occurs in `url` at `k` and is followed by a stop point. */
  predicate IdAt(url: string, id: string, k: nat) {
    k + |id| <= |url| && url[k..k + |id|] == id && StopsAt(url, k + |id|)
  }

  /** An id is never empty, holds no line terminator, and holds `&` at most as
      its first character; it ends where the URL ends, or before `&` or a line
      terminator. */
  lemma {:induction false} IdShape(url: string)
    requires GetVideoIdByUrl(url).Ok?
    ensures var id := GetVideoIdByUrl(url).value;
      && |id| >= 1
      && (forall i :: 0 <= i < |id| ==> !IsLineTerminator(id[i]))
      && (forall i :: 1 <= i < |id| ==> id[i] != '&')
      && exists k :: IdAt(url, id, k)
  {
    var pat := PatternFor(url);
    var p := FirstMatch(url, pat, 0).value;
    var k := p + HeadLength(pat);
    var e := StopFrom(url, k + 1);
    var id := GetVideoIdByUrl(url).value;
    assert id == url[k..e];
    forall i | 1 <= i < |id| ensures id[i] != '&' && !IsLineTerminator(id[i]) {
      assert id[i] == url[k + i] && !StopsAt(url, k + i);
    }
    assert IdAt(url, id, k);
  }

  lemma {:induction false} FirstMatchIs(s: string, pat: UrlPattern, from: nat, p: nat)
    requires from <= p && MatchesAt(s, p, pat)
    requires forall q :: from <= q < p ==> !MatchesAt(s, q, pat)
    ensures FirstMatch(s, pat, from) == Some(p)
    decreases p - from
  {
    if from < p {
      FirstMatchIs(s, pat, from + 1, p);
    }
  }

  lemma {:induction false} StopAtEnd(s: string, j: nat)
    requires j <= |s|
    requires forall i :: j <= i < |s| ==> s[i] != '&' && !IsLineTerminator(s[i])
    ensures StopFrom(s, j) == |s|
    decreases |s| - j
  {
    if j < |s| {
      StopAtEnd(s, j + 1);
    }
  }

  /** A well-formed id: what the group reads back in full. */
  predicate PlainId(id: string) {
    |id| >= 1 && forall i :: 0 <= i < |id| ==> id[i] != '&' && !IsLineTerminator(id[i])
  }

  /** The watch-page address `getVideoInfo` requests. */
  function WatchUrl(id: string): string {
    "https://youtube.com/watch?v=" + id
  }

  /** The id read from the watch-page address is the id it was built from. */
  lemma WatchUrlRoundTrip(id: string)
    requires PlainId(id)
    ensures GetVideoIdByUrl(WatchUrl(id)) == Ok(id)
  {
    var prefix := "https://youtube.com/watch?v=";
    var url := prefix + id;
    assert prefix[8..19] == "youtube.com";
    assert url[8..19] == prefix[8..19];
    ContainsAt(url, "youtube.com", 8);
    var p := |prefix| - 2;
    forall q | 0 <= q < p ensures !MatchesAt(url, q, WatchParam) {
      assert url[q] == prefix[q];
    }
    assert MatchesAt(url, p, WatchParam);
    FirstMatchIs(url, WatchParam, 0, p);
    forall i | |prefix| <= i < |url| ensures url[i] != '&' && !IsLineTerminator(url[i]) {
      assert url[i] == id[i - |prefix|];
    }
    StopAtEnd(url, |prefix| + 1);
    assert url[|prefix|..] == id;
    assert Capture(url, p, WatchParam) == url[|prefix|..|url|] == id;
    assert MatchId(url, WatchParam) == Ok(id);
    assert url != "";
    assert WatchUrl(id) == url;
  }

  /** The short link `https://youtu.be/<id>` gives back its id (unless the
      text also names "youtube.com", which takes precedence). */
  lemma ShortUrlRoundTrip(id: string)
    requires PlainId(id)
    requires !Contains("https://youtu.be/" + id, "youtube.com")
    ensures GetVideoIdByUrl("https://youtu.be/" + id) == Ok(id)
  {
    var prefix := "https://youtu.be/";
    var url := prefix + id;
    assert prefix[8..16] == "youtu.be";
    assert url[8..16] == prefix[8..16];
    ContainsAt(url, "youtu.be", 8);
    forall q | 0 <= q < 8 ensures !MatchesAt(url, q, ShortLink) {
      assert url[q] == prefix[q];
    }
    assert MatchesAt(url, 8, ShortLink);
    FirstMatchIs(url, ShortLink, 0, 8);
    forall i | |prefix| <= i < |url| ensures url[i] != '&' && !IsLineTerminator(url[i]) {
      assert url[i] == id[i - |prefix|];
    }
    StopAtEnd(url, |prefix| + 1);
    assert url[|prefix|..] == id;
    assert Capture(url, 8, ShortLink) == url[|prefix|..|url|] == id;
    assert MatchId(url, ShortLink) == Ok(id);
    assert url != "";
  }

  // ---------------------------------------------------------------------------
  // getVideoInfo
  // ---------------------------------------------------------------------------

  /** The fields of the player response that are read. Every JSON property may
      be missing. `subreason` stands for
      `playabilityStatus.errorScreen.playerErrorMessageRenderer.subreason`. */
  datatype VideoDetails = VideoDetails(
    title: Option<string>,
    isLowLatencyLiveStream: Option<bool>,
    latencyClass: Option<string>,
    isLiveDvrEnabled: Option<bool>,
    isLive: Option<bool>,
    isLiveContent: Option<bool>)

  datatype TextRun = TextRun(text: Option<string>)
  datatype Subreason = Subreason(simpleText: Option<string>, runs: Option<seq<TextRun>>)
  datatype StreamingData = StreamingData(dashManifestUrl: Option<string>)

  datatype PlayerResponse = PlayerResponse(
    videoDetails: Option<VideoDetails>,
    streamingData: Option<StreamingData>,
    subreason: Option<Subreason>)

  /** What fetching and scraping the watch page gave. */
  datatype Page = RequestFailed | NoPlayerResponse | Found(response: PlayerResponse)

  datatype ParseMessage = CantParseVideoUrl | CantParseVideoInfo | NotALiveStream

  datatype InfoError =
    | ParseError(message: ParseMessage)
    | TypeError
    | NetworkFailure
    | VideoPlayabilityStatusError(reason: string)

  datatype VideoInfo = VideoInfo(
    title: Option<string>,
    mpdUrl: Option<string>,
    isLowLatencyLiveStream: bool,
    latencyClass: Option<string>,
    isLiveDvrEnabled: bool,
    isPremiumVideo: bool)

  /** `!!x` of an optional boolean. */
  function Truthy(b: Option<bool>): (r: bool)
    ensures r <==> b == Some(true)
  {
    b.Some? && b.value
  }

  /** A string is truthy when it is present and non-empty. */
  function TruthyText(t: Option<string>): Option<string> {
    if t.Some? && t.value != "" then t else None
  }

  /** `simpleText || runs?.[0]?.text`, kept only when truthy. */
  function ErrorReason(r: PlayerResponse): (reason: Option<string>)
    ensures reason.Some? ==> reason.value != ""
  {
    if r.subreason.None? then None
    else
      var sub := r.subreason.value;
      var simple := TruthyText(sub.simpleText);
      if simple.Some? then simple
      else if sub.runs.Some? && |sub.runs.value| > 0 then TruthyText(sub.runs.value[0].text)
      else None
  }

  function Detail<T>(r: PlayerResponse, f: VideoDetails -> Option<T>): Option<T> {
    if r.videoDetails.Some? then f(r.videoDetails.value) else None
  }

  function InfoOf(r: PlayerResponse): VideoInfo
    requires r.streamingData.Some?
  {
    VideoInfo(
      Detail(r, (d: VideoDetails) => d.title),
      r.streamingData.value.dashManifestUrl,
      Truthy(Detail(r, (d: VideoDetails) => d.isLowLatencyLiveStream)),
      Detail(r, (d: VideoDetails) => d.latencyClass),
      Truthy(Detail(r, (d: VideoDetails) => d.isLiveDvrEnabled)),
      Truthy(Detail(r, (d: VideoDetails) => d.isLive)) && !Truthy(Detail(r, (d: VideoDetails) => d.isLiveContent)))
  }

  function GetVideoInfo(url: string, page: Page): (r: Result<VideoInfo, InfoError>)
    ensures GetVideoIdByUrl(url).Err? ==> r.Err? && r.error in {ParseError(CantParseVideoUrl), TypeError}
    ensures r.Ok? ==> page.Found? && page.response.streamingData.Some?
    ensures (exists reason :: r == Err(VideoPlayabilityStatusError(reason))) <==>
      GetVideoIdByUrl(url).Ok? && page.Found? && page.response.streamingData.None?
      && ErrorReason(page.response).Some?
  {
    var id := GetVideoIdByUrl(url);
    if id.Err? then
      Err(if id.error == IdParseError then ParseError(CantParseVideoUrl) else TypeError)
    else
      match page
      case RequestFailed => Err(NetworkFailure)
      case NoPlayerResponse => Err(ParseError(CantParseVideoInfo))
      case Found(r) =>
        if r.streamingData.None? then
          var reason := ErrorReason(r);
          if reason.Some? then Err(VideoPlayabilityStatusError(reason.value))
          else Err(ParseError(NotALiveStream))
        else Ok(InfoOf(r))
  }

  /** A premiere is a live broadcast that is not live content; the
      low-latency, DVR and premiere flags are false when a property is missing. */
  lemma InfoFlags(url: string, r: PlayerResponse)
    requires GetVideoIdByUrl(url).Ok? && r.streamingData.Some?
    ensures var info := GetVideoInfo(url, Found(r));
      && info.Ok?
      && info.value.isPremiumVideo == (Detail(r, (d: VideoDetails) => d.isLive) == Some(true)
                                       && Detail(r, (d: VideoDetails) => d.isLiveContent) != Some(true))
      && (r.videoDetails.None? ==> !info.value.isLowLatencyLiveStream && !info.value.isLiveDvrEnabled
                                   && !info.value.isPremiumVideo)
      && info.value.mpdUrl == r.streamingData.value.dashManifestUrl
  {
  }

  /** Without streaming data the error carries the subreason, `simpleText`
      before the first run's text; with neither it is "not a live stream". */
  lemma NoStreamingData(url: string, r: PlayerResponse)
    requires GetVideoIdByUrl(url).Ok? && r.streamingData.None?
    ensures r.subreason.Some? && r.subreason.value.simpleText.Some? && r.subreason.value.simpleText.value != "" ==>
      GetVideoInfo(url, Found(r)) == Err(VideoPlayabilityStatusError(r.subreason.value.simpleText.value))
    ensures r.subreason.Some? && TruthyText(r.subreason.value.simpleText).None?
            && r.subreason.value.runs.Some? && |r.subreason.value.runs.value| > 0
            && r.subreason.value.runs.value[0].text.Some? && r.subreason.value.runs.value[0].text.value != "" ==>
      GetVideoInfo(url, Found(r)) == Err(VideoPlayabilityStatusError(r.subreason.value.runs.value[0].text.value))
    ensures ErrorReason(r).None? ==> GetVideoInfo(url, Found(r)) == Err(ParseError(NotALiveStream))
  {
  }
}
