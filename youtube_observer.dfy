/** `YouTubeObserver`: waits until the stream is live, reads the stream facts,
    then polls the DASH manifest and announces every media segment once.
    Each poll's manifest (fetched and parsed), each heartbeat and each
    video-info request are inputs; the timers become explicit calls of `Poll`,
    and their being armed is a flag. */
module Observer {
  import opened Wrappers
  import opened JsText
  import opened MpdParser
  import SelectFormat
  import YouTube

  // ---------------------------------------------------------------------------
  // the segment number in a segment URL: `/\/sq\/(\d+)\//`
  // ---------------------------------------------------------------------------

  /** The end of the run of decimal digits starting at `j`. */
  function DigitRunEnd(s: string, j: nat): (e: nat)
    requires j <= |s|
    ensures j <= e <= |s| && (e == |s| || !IsDigit(s[e]))
    ensures forall i :: j <= i < e ==> IsDigit(s[i])
    decreases |s| - j
  {
    if j < |s| && IsDigit(s[j]) then DigitRunEnd(s, j + 1) else j
  }

  /** `/sq/`, at least one digit, and `/` match at `p` (the greedy `\d+`
      cannot give back a digit, since a digit is never `/`). */
  predicate SqAt(s: string, p: nat) {
    p + 4 <= |s| && s[p..p + 4] == "/sq/"
    && var e := DigitRunEnd(s, p + 4); e > p + 4 && e < |s| && s[e] == '/'
  }

  function FirstSq(s: string, from: nat): (r: Option<nat>)
    ensures r.Some? ==> from <= r.value && SqAt(s, r.value)
    ensures r.Some? ==> forall q :: from <= q < r.value ==> !SqAt(s, q)
    ensures r.None? ==> forall q :: from <= q ==> !SqAt(s, q)
    decreases |s| - from
  {
    if from >= |s| then None
    else if SqAt(s, from) then Some(from)
    else FirstSq(s, from + 1)
  }

  /** The digits of the leftmost match. */
  function SqDigits(url: string): (d: Option<string>)
    ensures d.Some? ==> |d.value| >= 1 && forall i :: 0 <= i < |d.value| ==> IsDigit(d.value[i])
  {
    var p := FirstSq(url, 0);
    if p.Some? then Some(url[p.value + 4..DigitRunEnd(url, p.value + 4)]) else None
  }

  /** The segment number of a URL: `parseInt` of the digits, which is never
      NaN; `None` where `match` gives null. */
  function SqId(url: string): (id: Option<nat>)
    ensures id.Some? <==> SqDigits(url).Some?
  {
    var d := SqDigits(url);
    if d.Some? then Some(DigitsValue(d.value, 10)) else None
  }

  /** The id is what `parseInt` reads from the matched digits. */
  lemma SqIdParses(url: string)
    requires SqId(url).Some?
    ensures ParseInt(SqDigits(url).value) == Num(SqId(url).value)
  {
    ParseIntOfDigits(SqDigits(url).value);
  }

  predicate SqHead(s: string, q: nat) {
    q + 4 <= |s| && s[q..q + 4] == "/sq/"
  }

  /** A URL built around `/sq/<n>/` gives back `n`, as long as no earlier
      `/sq/` occurs. */
  lemma SqIdRoundTrip(prefix: string, n: nat, rest: string)
    requires forall q :: 0 <= q < |prefix| ==> !SqHead(prefix + "/sq/", q)
    ensures SqId(prefix + "/sq/" + NatToString(n) + "/" + rest) == Some(n)
  {
    var digits := NatToString(n);
    SqDigitsFound(prefix, digits, rest);
    NatToStringValue(n);
  }

  /** The digits between `/sq/` and the next `/` are the ones matched. */
  lemma SqDigitsFound(prefix: string, digits: string, rest: string)
    requires forall q :: 0 <= q < |prefix| ==> !SqHead(prefix + "/sq/", q)
    requires |digits| >= 1 && forall i :: 0 <= i < |digits| ==> IsDigit(digits[i])
    ensures SqDigits(prefix + "/sq/" + digits + "/" + rest) == Some(digits)
  {
    var head := prefix + "/sq/";
    var url := head + (digits + "/" + rest);
    assert url == prefix + "/sq/" + digits + "/" + rest;
    NoEarlierSq(prefix, digits + "/" + rest);
    DigitsThenSlash(head, digits, rest);
    FirstSqIs(url, 0, |prefix|);
    assert url[|head|..|head| + |digits|] == digits;
  }

  lemma NoEarlierSq(prefix: string, tail: string)
    requires forall q :: 0 <= q < |prefix| ==> !SqHead(prefix + "/sq/", q)
    ensures forall q :: 0 <= q < |prefix| ==> !SqAt(prefix + "/sq/" + tail, q)
  {
    var head := prefix + "/sq/";
    var url := head + tail;
    assert url[..|head|] == head;
    forall q | 0 <= q < |prefix| ensures !SqAt(url, q) {
      assert !SqHead(head, q);
      assert url[q..q + 4] == head[q..q + 4];
    }
  }

  lemma DigitsThenSlash(head: string, digits: string, rest: string)
    requires |head| >= 4 && head[|head| - 4..] == "/sq/"
    requires |digits| >= 1 && forall i :: 0 <= i < |digits| ==> IsDigit(digits[i])
    ensures var url := head + (digits + "/" + rest);
      SqAt(url, |head| - 4) && DigitRunEnd(url, |head|) == |head| + |digits|
  {
    var url := head + (digits + "/" + rest);
    var p := |head| - 4;
    assert url[p..p + 4] == head[p..];
    var e := |head| + |digits|;
    assert url[e] == '/';
    forall i | |head| <= i < e ensures IsDigit(url[i]) {
      assert url[i] == digits[i - |head|];
    }
    DigitRunTo(url, |head|, |digits|);
  }

  /** A URL without a `/` has no segment number. */
  lemma {:induction false} NoSqWithoutSlash(s: string, from: nat)
    requires '/' !in s
    ensures FirstSq(s, from).None?
    decreases |s| - from
  {
    if from < |s| {
      NoSqWithoutSlash(s, from + 1);
    }
  }

  lemma {:induction false} DigitRunTo(s: string, j: nat, n: nat)
    requires j + n < |s| && !IsDigit(s[j + n])
    requires forall i :: j <= i < j + n ==> IsDigit(s[i])
    ensures DigitRunEnd(s, j) == j + n
    decreases n
  {
    if n > 0 {
      DigitRunTo(s, j + 1, n - 1);
    }
  }

  lemma {:induction false} FirstSqIs(s: string, from: nat, p: nat)
    requires from <= p && SqAt(s, p)
    requires forall q :: from <= q < p ==> !SqAt(s, q)
    ensures FirstSq(s, from) == Some(p)
    decreases p - from
  {
    if from < p {
      FirstSqIs(s, from + 1, p);
    }
  }

  // ---------------------------------------------------------------------------
  // the diff of one track against its seen flags
  // ---------------------------------------------------------------------------

  datatype Chunk = Chunk(id: nat, url: string)

  /** The new segments of one track, the flags afterwards, and whether a URL
      without a segment number stopped the scan (a TypeError). */
  datatype ScanResult = ScanResult(chunks: seq<Chunk>, seen: set<nat>, failed: bool)

  /** The loop over `selectedTrack.urls`: a segment whose flag is unset is
      added to the batch and flagged at once. */
  function Scan(urls: seq<string>, seen: set<nat>): ScanResult
    decreases |urls|
  {
    if urls == [] then ScanResult([], seen, false)
    else
      var id := SqId(urls[0]);
      if id.None? then ScanResult([], seen, true)
      else if id.value in seen then Scan(urls[1..], seen)
      else
        var rest := Scan(urls[1..], seen + {id.value});
        ScanResult([Chunk(id.value, urls[0])] + rest.chunks, rest.seen, rest.failed)
  }

  function ChunkIds(chunks: seq<Chunk>): set<nat> {
    set i | 0 <= i < |chunks| :: chunks[i].id
  }

  function UrlIds(urls: seq<string>): set<nat> {
    set i | 0 <= i < |urls| && SqId(urls[i]).Some? :: SqId(urls[i]).value
  }

  predicate DistinctIds(chunks: seq<Chunk>) {
    forall i, j :: 0 <= i < j < |chunks| ==> chunks[i].id != chunks[j].id
  }

  /** `a` is `b` with some elements left out, the rest in order. */
  predicate IsSubsequence(a: seq<string>, b: seq<string>)
    decreases |b|
  {
    a == [] || (b != [] && ((a[0] == b[0] && IsSubsequence(a[1..], b[1..])) || IsSubsequence(a, b[1..])))
  }

  function ChunkUrls(chunks: seq<Chunk>): (us: seq<string>)
    ensures |us| == |chunks|
  {
    seq(|chunks|, i requires 0 <= i < |chunks| => chunks[i].url)
  }

  /** A segment is announced at most once: the batch has distinct ids, none
      flagged before, and the flags afterwards are the old ones plus the
      batch's ids. */
  lemma {:induction false} ScanFresh(urls: seq<string>, seen: set<nat>)
    ensures var r := Scan(urls, seen);
      && DistinctIds(r.chunks)
      && (forall i :: 0 <= i < |r.chunks| ==> r.chunks[i].id !in seen)
      && r.seen == seen + ChunkIds(r.chunks)
    decreases |urls|
  {
    if urls != [] {
      var id := SqId(urls[0]);
      if id.Some? {
        if id.value in seen {
          ScanFresh(urls[1..], seen);
        } else {
          ScanFresh(urls[1..], seen + {id.value});
          ConsFresh(Chunk(id.value, urls[0]), Scan(urls[1..], seen + {id.value}).chunks, seen);
        }
      }
    }
  }

  /** A fresh chunk in front of a batch that is fresh with respect to the
      flags including it. */
  lemma ConsFresh(c: Chunk, rest: seq<Chunk>, seen: set<nat>)
    requires c.id !in seen
    requires DistinctIds(rest) && forall i :: 0 <= i < |rest| ==> rest[i].id !in seen + {c.id}
    ensures DistinctIds([c] + rest)
    ensures forall i :: 0 <= i < |[c] + rest| ==> ([c] + rest)[i].id !in seen
    ensures ChunkIds([c] + rest) == {c.id} + ChunkIds(rest)
  {
    var all := [c] + rest;
    assert all[0] == c;
    assert c.id in ChunkIds(all);
    forall x | x in ChunkIds(all) ensures x in {c.id} + ChunkIds(rest) {
      var i :| 0 <= i < |all| && all[i].id == x;
      if i > 0 { assert all[i] == rest[i - 1]; }
    }
    forall x | x in ChunkIds(rest) ensures x in ChunkIds(all) {
      var i :| 0 <= i < |rest| && rest[i].id == x;
      assert all[i + 1] == rest[i];
    }
    forall i, j | 0 <= i < j < |all| ensures all[i].id != all[j].id {
      assert all[j] == rest[j - 1];
      if i > 0 { assert all[i] == rest[i - 1]; }
    }
  }

  /** The scan stops exactly at a URL without a segment number; when it does
      not stop, the flags afterwards are the old ones plus every segment of the
      manifest, so the batch is exactly the segments not seen before. */
  lemma {:induction false} ScanComplete(urls: seq<string>, seen: set<nat>)
    ensures var r := Scan(urls, seen);
      && (r.failed <==> exists i :: 0 <= i < |urls| && SqId(urls[i]).None?)
      && (!r.failed ==> r.seen == seen + UrlIds(urls))
    decreases |urls|
  {
    if urls != [] {
      var id := SqId(urls[0]);
      if id.Some? {
        var s2 := if id.value in seen then seen else seen + {id.value};
        ScanComplete(urls[1..], s2);
        UrlIdsCons(urls);
        NoSqIdCons(urls);
      }
    }
  }

  lemma UrlIdsCons(urls: seq<string>)
    requires urls != [] && SqId(urls[0]).Some?
    ensures UrlIds(urls) == {SqId(urls[0]).value} + UrlIds(urls[1..])
  {
    forall x | x in UrlIds(urls) ensures x in {SqId(urls[0]).value} + UrlIds(urls[1..]) {
      var i :| 0 <= i < |urls| && SqId(urls[i]).Some? && SqId(urls[i]).value == x;
      if i > 0 { assert urls[i] == urls[1..][i - 1]; }
    }
    forall x | x in UrlIds(urls[1..]) ensures x in UrlIds(urls) {
      var i :| 0 <= i < |urls[1..]| && SqId(urls[1..][i]).Some? && SqId(urls[1..][i]).value == x;
      assert urls[1..][i] == urls[i + 1];
    }
  }

  lemma NoSqIdCons(urls: seq<string>)
    requires urls != [] && SqId(urls[0]).Some?
    ensures (exists i :: 0 <= i < |urls| && SqId(urls[i]).None?)
        <==> (exists i :: 0 <= i < |urls[1..]| && SqId(urls[1..][i]).None?)
  {
    if exists i :: 0 <= i < |urls[1..]| && SqId(urls[1..][i]).None? {
      var i :| 0 <= i < |urls[1..]| && SqId(urls[1..][i]).None?;
      assert urls[i + 1] == urls[1..][i];
    }
    if exists i :: 0 <= i < |urls| && SqId(urls[i]).None? {
      var i :| 0 <= i < |urls| && SqId(urls[i]).None?;
      assert urls[1..][i - 1] == urls[i];
    }
  }

  /** The batch lists its segments in manifest order. */
  lemma {:induction false} ScanOrder(urls: seq<string>, seen: set<nat>)
    ensures IsSubsequence(ChunkUrls(Scan(urls, seen).chunks), urls)
    decreases |urls|
  {
    var r := Scan(urls, seen);
    if urls != [] {
      var id := SqId(urls[0]);
      if id.Some? {
        if id.value in seen {
          ScanOrder(urls[1..], seen);
          SubsequenceSkip(ChunkUrls(r.chunks), urls);
        } else {
          var rest := Scan(urls[1..], seen + {id.value});
          ScanOrder(urls[1..], seen + {id.value});
          assert ChunkUrls(r.chunks)[1..] == ChunkUrls(rest.chunks);
        }
      }
    }
  }

  /** Each chunk carries the number its URL names. */
  predicate IdsMatch(chunks: seq<Chunk>) {
    forall i :: 0 <= i < |chunks| ==> SqId(chunks[i].url) == Some(chunks[i].id)
  }

  /** Each segment of the batch carries the number its URL names. */
  lemma {:induction false} ScanIds(urls: seq<string>, seen: set<nat>)
    ensures IdsMatch(Scan(urls, seen).chunks)
    decreases |urls|
  {
    if urls != [] {
      var id := SqId(urls[0]);
      if id.Some? {
        if id.value in seen {
          ScanIds(urls[1..], seen);
        } else {
          var rest := Scan(urls[1..], seen + {id.value}).chunks;
          ScanIds(urls[1..], seen + {id.value});
          var all := [Chunk(id.value, urls[0])] + rest;
          assert Scan(urls, seen).chunks == all;
          forall i | 0 <= i < |all| ensures SqId(all[i].url) == Some(all[i].id) {
            if i > 0 { assert all[i] == rest[i - 1]; }
          }
        }
      }
    }
  }

  lemma SubsequenceSkip(a: seq<string>, b: seq<string>)
    requires b != [] && IsSubsequence(a, b[1..])
    ensures IsSubsequence(a, b)
  {
  }

  /** The diff loop of one track, proved against `Scan`. On a URL without a
      segment number it stops with the flags set so far. */
  method CollectNew(urls: seq<string>, seen: set<nat>) returns (chunks: seq<Chunk>, flags: set<nat>, failed: bool)
    ensures ScanResult(chunks, flags, failed) == Scan(urls, seen)
  {
    chunks := [];
    flags := seen;
    for i := 0 to |urls|
      invariant Scan(urls, seen) == Prefixed(chunks, Scan(urls[i..], flags))
    {
      CollectStep(urls[i..], chunks, flags);
      assert urls[i..][1..] == urls[i + 1..];
      var id := SqId(urls[i]);
      if id.None? {
        return chunks, flags, true;
      }
      if id.value !in flags {
        chunks := chunks + [Chunk(id.value, urls[i])];
        flags := flags + {id.value};
      }
    }
    assert urls[|urls|..] == [];
    failed := false;
  }

  /** One step of `CollectNew`: the first URL either stops the scan, is
      skipped, or moves its chunk from the rest's batch to the prefix. */
  lemma CollectStep(u: seq<string>, chunks: seq<Chunk>, flags: set<nat>)
    requires u != []
    ensures SqId(u[0]).None? ==> Prefixed(chunks, Scan(u, flags)) == ScanResult(chunks, flags, true)
    ensures SqId(u[0]).Some? && SqId(u[0]).value in flags ==>
      Prefixed(chunks, Scan(u, flags)) == Prefixed(chunks, Scan(u[1..], flags))
    ensures SqId(u[0]).Some? && SqId(u[0]).value !in flags ==>
      Prefixed(chunks, Scan(u, flags)) ==
      Prefixed(chunks + [Chunk(SqId(u[0]).value, u[0])], Scan(u[1..], flags + {SqId(u[0]).value}))
  {
    var id := SqId(u[0]);
    if id.Some? && id.value !in flags {
      var rest := Scan(u[1..], flags + {id.value});
      assert chunks + ([Chunk(id.value, u[0])] + rest.chunks) == chunks + [Chunk(id.value, u[0])] + rest.chunks;
    }
  }

  /** A scan result with `chunks` in front of its batch. */
  function Prefixed(chunks: seq<Chunk>, r: ScanResult): ScanResult {
    r.(chunks := chunks + r.chunks)
  }

  // ---------------------------------------------------------------------------
  // one poll: getVideoChunks
  // ---------------------------------------------------------------------------

  datatype ObserverEvent = NewVideoChunks(chunks: seq<Chunk>) | NewAudioChunks(chunks: seq<Chunk>) | End

  datatype PollError = NetworkError | TypeError

  datatype PollOutcome = PollOutcome(events: seq<ObserverEvent>, err: Option<PollError>,
                                     videoSeen: set<nat>, audioSeen: set<nat>)

  function Batch(chunks: seq<Chunk>, video: bool): seq<ObserverEvent> {
    if |chunks| == 0 then [] else if video then [NewVideoChunks(chunks)] else [NewAudioChunks(chunks)]
  }

  predicate IsStatic(r: ParseResult) {
    r.rawMpd.mpdType == Some("static")
  }

  /** What a poll over a fetched and parsed manifest emits and flags. The
      video batch goes out before the audio URLs are read, so a failure on the
      audio side does not take it back. */
  function PollSpec(format: string, r: ParseResult, videoSeen: set<nat>, audioSeen: set<nat>): PollOutcome {
    var sel := SelectFormat.Select(format, r.videoTracks, r.audioTracks);
    if sel.video.None? then PollOutcome([], Some(TypeError), videoSeen, audioSeen)
    else
      var v := Scan(sel.video.value.urls, videoSeen);
      if v.failed then PollOutcome([], Some(TypeError), v.seen, audioSeen)
      else
        var ve := Batch(v.chunks, true);
        if sel.audio.None? then PollOutcome(ve, Some(TypeError), v.seen, audioSeen)
        else
          var a := Scan(sel.audio.value.urls, audioSeen);
          if a.failed then PollOutcome(ve, Some(TypeError), v.seen, a.seen)
          else PollOutcome(ve + Batch(a.chunks, false) + (if IsStatic(r) then [End] else []),
                           None, v.seen, a.seen)
  }

  function VideoIdsOf(events: seq<ObserverEvent>): seq<nat> {
    if events == [] then []
    else (if events[0].NewVideoChunks? then IdList(events[0].chunks) else []) + VideoIdsOf(events[1..])
  }

  function AudioIdsOf(events: seq<ObserverEvent>): seq<nat> {
    if events == [] then []
    else (if events[0].NewAudioChunks? then IdList(events[0].chunks) else []) + AudioIdsOf(events[1..])
  }

  function IdList(chunks: seq<Chunk>): (ids: seq<nat>)
    ensures |ids| == |chunks|
  {
    seq(|chunks|, i requires 0 <= i < |chunks| => chunks[i].id)
  }

  predicate Distinct(s: seq<nat>) {
    forall i, j :: 0 <= i < j < |s| ==> s[i] != s[j]
  }

  /** Event order within a poll: at most one video batch, first; then at most
      one audio batch; then "end", last. Batches are never empty. */
  predicate OrderedEvents(ev: seq<ObserverEvent>) {
    && (forall i :: 0 <= i < |ev| ==> (ev[i].NewVideoChunks? ==> i == 0))
    && (forall i :: 0 <= i < |ev| ==> (ev[i].End? ==> i == |ev| - 1))
    && (forall i :: 0 <= i < |ev| ==> !ev[i].End? ==> |ev[i].chunks| > 0)
    && |ev| <= 3
  }

  /** The events a poll emits are ordered, and "end" comes exactly when the
      poll succeeds on a static manifest. */
  lemma PollEvents(format: string, r: ParseResult, videoSeen: set<nat>, audioSeen: set<nat>)
    ensures var o := PollSpec(format, r, videoSeen, audioSeen);
      && OrderedEvents(o.events)
      && (o.err.None? ==> (End in o.events <==> IsStatic(r)))
      && (o.err.Some? ==> End !in o.events)
  {
    var sel := SelectFormat.Select(format, r.videoTracks, r.audioTracks);
    if sel.video.Some? {
      var v := Scan(sel.video.value.urls, videoSeen);
      if !v.failed {
        BatchesOrdered(v.chunks, [], []);
        assert Batch(v.chunks, true) + Batch([], false) + [] == Batch(v.chunks, true);
        if sel.audio.Some? {
          var a := Scan(sel.audio.value.urls, audioSeen);
          BatchesOrdered(v.chunks, a.chunks, if IsStatic(r) then [End] else []);
        }
      }
    }
  }

  /** A video batch, an audio batch and possibly "end", in that order. */
  lemma BatchesOrdered(vChunks: seq<Chunk>, aChunks: seq<Chunk>, tail: seq<ObserverEvent>)
    requires tail == [] || tail == [End]
    ensures var ev := Batch(vChunks, true) + Batch(aChunks, false) + tail;
      OrderedEvents(ev) && (End in ev <==> tail == [End])
  {
    var ve, ae := Batch(vChunks, true), Batch(aChunks, false);
    var ev := ve + ae + tail;
    assert |ve| <= 1 && |ae| <= 1;
    forall i | 0 <= i < |ev|
      ensures ev[i] == (if i < |ve| then ve[i] else if i < |ve| + |ae| then ae[i - |ve|] else tail[i - |ve| - |ae|])
    {
    }
    assert End in ev <==> End in tail;
  }

  /** A URL without a segment number on the video side costs every new video
      segment listed before it in that manifest: they are flagged but never
      announced. */
  lemma LostBeforeBadUrl()
    ensures var r := ParseResult([Track(Num(1), Num(1), ["/sq/7/", "init"])], [], Mpd(None, Absent));
      var o := PollSpec("", r, {}, {});
      o.events == [] && o.err == Some(TypeError) && 7 in o.videoSeen
  {
    SqIdRoundTrip("", 7, "");
    assert "" + "/sq/" + NatToString(7) + "/" + "" == "/sq/7/";
    NoSqWithoutSlash("init", 0);
    var urls := ["/sq/7/", "init"];
    assert urls[1..] == ["init"];
    var sc := Scan(urls, {});
    assert sc.failed && sc.seen == {7};
  }

  // ---------------------------------------------------------------------------
  // the observer
  // ---------------------------------------------------------------------------

  /** A heartbeat answer: not live yet, live, or a failed request. */
  datatype Heartbeat = Offline | Online | HeartbeatFailed

  datatype ConnectOutcome = StillWaiting | Connected(info: YouTube.VideoInfo) | GaveUp

  const DefaultInterval: nat := 5000
  const OfflineSleep: nat := 15000
  const ErrorSleep: nat := 3000
  const InfoAttempts: nat := 3

  function SleepFor(h: Heartbeat): nat {
    if h == Offline then OfflineSleep else ErrorSleep
  }

  /** The poll interval for a low-latency stream. */
  function LowLatencyInterval(latencyClass: string): (ms: nat)
    ensures ms == 3000 <==> EndsWith(latencyClass, "ULTRA_LOW")
    ensures ms == 3000 || ms == 4000
  {
    if EndsWith(latencyClass, "ULTRA_LOW") then 3000 else 4000
  }

  /** An attempt counts as a success when the request gave the facts and, for
      a low-latency stream, a latency class to test (`endsWith` of undefined
      throws inside the same `try`). */
  predicate GoodInfo(o: Result<YouTube.VideoInfo, YouTube.InfoError>) {
    o.Ok? && (o.value.isLowLatencyLiveStream ==> o.value.latencyClass.Some?)
  }

  /** The first good attempt among the first three, if any. */
  function FirstGood(infos: seq<Result<YouTube.VideoInfo, YouTube.InfoError>>, k: nat): (r: Option<nat>)
    requires k <= |infos|
    ensures r.Some? ==> k <= r.value < |infos| && GoodInfo(infos[r.value])
    ensures r.Some? ==> forall j :: k <= j < r.value ==> !GoodInfo(infos[j])
    ensures r.None? ==> forall j :: k <= j < |infos| ==> !GoodInfo(infos[j])
    decreases |infos| - k
  {
    if k == |infos| then None
    else if GoodInfo(infos[k]) then Some(k)
    else FirstGood(infos, k + 1)
  }

  /** `this.mpdUrl` after the failed attempts `infos`: every attempt whose
      request succeeded assigned it before the latency test. */
  function MpdUrlAfter(infos: seq<Result<YouTube.VideoInfo, YouTube.InfoError>>, cur: Option<string>): Option<string> {
    if infos == [] then cur
    else
      var last := infos[|infos| - 1];
      if last.Ok? then last.value.mpdUrl else MpdUrlAfter(infos[..|infos| - 1], cur)
  }

  /** The index of the first live heartbeat, if any. */
  function FirstOnline(hs: seq<Heartbeat>): (r: Option<nat>)
    ensures r.Some? ==> r.value < |hs| && hs[r.value] == Online
    ensures r.Some? ==> forall j :: 0 <= j < r.value ==> hs[j] != Online
    ensures r.None? <==> Online !in hs
  {
    if hs == [] then None
    else if hs[0] == Online then Some(0)
    else
      var r := FirstOnline(hs[1..]);
      if r.Some? then Some(r.value + 1) else None
  }

  function Sleeps(hs: seq<Heartbeat>): (ms: seq<nat>)
    ensures |ms| == |hs|
    ensures forall i :: 0 <= i < |hs| ==> ms[i] == SleepFor(hs[i])
  {
    seq(|hs|, i requires 0 <= i < |hs| => SleepFor(hs[i]))
  }

  class YouTubeObserver {
    const videoUrl: string
    const format: string
    var mpdUrl: Option<string>
    var playlistFetchInterval: nat
    /** the manifest poll timer is armed */
    var polling: bool
    /** the hourly manifest-URL refresh timer is armed */
    var refreshing: bool
    var videoSeen: set<nat>
    var audioSeen: set<nat>
    /** every segment number announced so far, per track */
    ghost var videoEmitted: seq<nat>
    ghost var audioEmitted: seq<nat>

    /** No segment is announced twice, and each announced one is flagged. */
    ghost predicate Valid()
      reads this`videoEmitted, this`videoSeen, this`audioEmitted, this`audioSeen
    {
      && Distinct(videoEmitted) && (forall i :: 0 <= i < |videoEmitted| ==> videoEmitted[i] in videoSeen)
      && Distinct(audioEmitted) && (forall i :: 0 <= i < |audioEmitted| ==> audioEmitted[i] in audioSeen)
    }

    /** An absent format is given as `""`. */
    constructor(videoUrl: string, format: string)
      ensures Valid()
      ensures this.videoUrl == videoUrl && this.format == format
      ensures playlistFetchInterval == DefaultInterval && mpdUrl.None?
      ensures !polling && !refreshing
      ensures videoSeen == {} && audioSeen == {} && videoEmitted == [] && audioEmitted == []
    {
      this.videoUrl := videoUrl;
      this.format := format;
      mpdUrl := None;
      playlistFetchInterval := DefaultInterval;
      polling := false;
      refreshing := false;
      videoSeen := {};
      audioSeen := {};
      videoEmitted := [];
      audioEmitted := [];
    }

    /** `getVideoChunks` with the manifest the request gave (`None`: the
        request or the parse failed). An "end" event also disarms the poll
        timer. */
    method Poll(fetched: Option<ParseResult>) returns (events: seq<ObserverEvent>, err: Option<PollError>)
      requires Valid()
      modifies this`videoSeen, this`audioSeen, this`videoEmitted, this`audioEmitted, this`polling
      ensures Valid()
      ensures fetched.None? ==> (events == [] && err == Some(NetworkError)
        && videoSeen == old(videoSeen) && audioSeen == old(audioSeen))
      ensures fetched.Some? ==>
        PollOutcome(events, err, videoSeen, audioSeen) == PollSpec(format, fetched.value, old(videoSeen), old(audioSeen))
      ensures videoEmitted == old(videoEmitted) + VideoIdsOf(events)
      ensures audioEmitted == old(audioEmitted) + AudioIdsOf(events)
      ensures polling == (old(polling) && End !in events)
    {
      if fetched.None? {
        return [], Some(NetworkError);
      }
      var r := fetched.value;
      var sel := SelectFormat.Select(format, r.videoTracks, r.audioTracks);
      if sel.video.None? {
        return [], Some(TypeError);
      }
      var vChunks, vFailed := DiffVideo(sel.video.value.urls);
      if vFailed {
        return [], Some(TypeError);
      }
      events := Batch(vChunks, true);
      BatchIds(vChunks);
      assert audioEmitted == old(audioEmitted) + AudioIdsOf(events) by {
        assert old(audioEmitted) + [] == old(audioEmitted);
      }
      if sel.audio.None? {
        return events, Some(TypeError);
      }
      var aChunks, aFailed := DiffAudio(sel.audio.value.urls);
      if aFailed {
        return events, Some(TypeError);
      }
      var tail := if IsStatic(r) then [End] else [];
      EventsIds(vChunks, aChunks, tail);
      events := events + Batch(aChunks, false) + tail;
      if IsStatic(r) {
        polling := false;
      }
      err := None;
    }

    /** The video loop of `getVideoChunks`: the flags are updated even when
        the loop stops on a URL without a segment number, but the batch is
        only announced when it does not. */
    method DiffVideo(urls: seq<string>) returns (chunks: seq<Chunk>, failed: bool)
      requires Valid()
      modifies this`videoSeen, this`videoEmitted
      ensures Valid()
      ensures ScanResult(chunks, videoSeen, failed) == Scan(urls, old(videoSeen))
      ensures videoEmitted == old(videoEmitted) + (if failed then [] else IdList(chunks))
    {
      var flags;
      chunks, flags, failed := CollectNew(urls, videoSeen);
      ScanFresh(urls, videoSeen);
      EmitKeepsDistinct(videoEmitted, chunks, videoSeen);
      videoSeen := flags;
      if !failed {
        videoEmitted := videoEmitted + IdList(chunks);
      } else {
        assert videoEmitted == old(videoEmitted) + [];
      }
    }

    /** The audio loop, likewise. */
    method DiffAudio(urls: seq<string>) returns (chunks: seq<Chunk>, failed: bool)
      requires Valid()
      modifies this`audioSeen, this`audioEmitted
      ensures Valid()
      ensures ScanResult(chunks, audioSeen, failed) == Scan(urls, old(audioSeen))
      ensures audioEmitted == old(audioEmitted) + (if failed then [] else IdList(chunks))
    {
      var flags;
      chunks, flags, failed := CollectNew(urls, audioSeen);
      ScanFresh(urls, audioSeen);
      EmitKeepsDistinct(audioEmitted, chunks, audioSeen);
      audioSeen := flags;
      if !failed {
        audioEmitted := audioEmitted + IdList(chunks);
      } else {
        assert audioEmitted == old(audioEmitted) + [];
      }
    }

    /** `disconnect`: both timers are cleared; doing it twice is harmless. */
    method Disconnect()
      modifies this`polling, this`refreshing
      ensures !polling && !refreshing
    {
      polling := false;
      refreshing := false;
    }

    /** `connect`, given the heartbeat answers in order and what each of the
        three video-info attempts gives. The heartbeat loop retries without
        limit (`StillWaiting`: no live answer among those given); after three
        failed info attempts the hourly refresh is armed and nothing is
        returned. */
    method Connect(heartbeats: seq<Heartbeat>, infos: seq<Result<YouTube.VideoInfo, YouTube.InfoError>>)
        returns (outcome: ConnectOutcome, sleeps: seq<nat>, attempts: nat)
      requires |infos| == InfoAttempts
      modifies this`mpdUrl, this`polling, this`refreshing, this`playlistFetchInterval
      ensures FirstOnline(heartbeats).None? ==>
        outcome == StillWaiting && sleeps == Sleeps(heartbeats) && attempts == 0
      ensures FirstOnline(heartbeats).Some? ==> sleeps == Sleeps(heartbeats[..FirstOnline(heartbeats).value])
      ensures FirstOnline(heartbeats).Some? && FirstGood(infos, 0).Some? ==>
        var k := FirstGood(infos, 0).value;
        && outcome == Connected(infos[k].value) && attempts == k + 1
        && mpdUrl == infos[k].value.mpdUrl && polling && refreshing == old(refreshing)
        && playlistFetchInterval == (if infos[k].value.isLowLatencyLiveStream
                                     then LowLatencyInterval(infos[k].value.latencyClass.value)
                                     else old(playlistFetchInterval))
      ensures FirstOnline(heartbeats).Some? && FirstGood(infos, 0).None? ==>
        && outcome == GaveUp && attempts == InfoAttempts && refreshing && polling == old(polling)
        && mpdUrl == MpdUrlAfter(infos, old(mpdUrl))
        && playlistFetchInterval == old(playlistFetchInterval)
      ensures outcome == StillWaiting ==> (mpdUrl == old(mpdUrl) && polling == old(polling)
        && refreshing == old(refreshing) && playlistFetchInterval == old(playlistFetchInterval))
    {
      sleeps := [];
      attempts := 0;
      var i := 0;
      while i < |heartbeats| && heartbeats[i] != Online
        invariant 0 <= i <= |heartbeats|
        invariant forall j :: 0 <= j < i ==> heartbeats[j] != Online
        invariant sleeps == Sleeps(heartbeats[..i])
      {
        sleeps := sleeps + [SleepFor(heartbeats[i])];
        i := i + 1;
      }
      if i == |heartbeats| {
        assert heartbeats[..i] == heartbeats;
        return StillWaiting, sleeps, 0;
      }
      FirstOnlineIs(heartbeats, i);
      var retries := InfoAttempts;
      while retries > 0
        invariant 0 <= retries <= InfoAttempts
        invariant attempts == InfoAttempts - retries
        invariant forall j :: 0 <= j < attempts ==> !GoodInfo(infos[j])
        invariant mpdUrl == MpdUrlAfter(infos[..attempts], old(mpdUrl))
        invariant polling == old(polling) && refreshing == old(refreshing)
        invariant playlistFetchInterval == old(playlistFetchInterval)
      {
        var o := infos[attempts];
        assert infos[..attempts + 1][..attempts] == infos[..attempts];
        attempts := attempts + 1;
        if o.Ok? {
          var info := o.value;
          mpdUrl := info.mpdUrl;
          if info.isLowLatencyLiveStream {
            if info.latencyClass.None? {
              // `endsWith` of undefined: caught, and retried
              retries := retries - 1;
              continue;
            }
            playlistFetchInterval := LowLatencyInterval(info.latencyClass.value);
          }
          polling := true;
          FirstGoodIs(infos, attempts - 1);
          return Connected(info), sleeps, attempts;
        }
        retries := retries - 1;
      }
      assert infos[..attempts] == infos;
      refreshing := true;
      outcome := GaveUp;
    }
  }

  lemma FirstOnlineIs(hs: seq<Heartbeat>, i: nat)
    requires i < |hs| && hs[i] == Online && forall j :: 0 <= j < i ==> hs[j] != Online
    ensures FirstOnline(hs) == Some(i)
  {
  }

  lemma FirstGoodIs(infos: seq<Result<YouTube.VideoInfo, YouTube.InfoError>>, k: nat)
    requires k < |infos| && GoodInfo(infos[k]) && forall j :: 0 <= j < k ==> !GoodInfo(infos[j])
    ensures FirstGood(infos, 0) == Some(k)
  {
    FirstGoodFrom(infos, 0, k);
  }

  lemma {:induction false} FirstGoodFrom(infos: seq<Result<YouTube.VideoInfo, YouTube.InfoError>>, from: nat, k: nat)
    requires from <= k < |infos| && GoodInfo(infos[k]) && forall j :: from <= j < k ==> !GoodInfo(infos[j])
    ensures FirstGood(infos, from) == Some(k)
    decreases k - from
  {
    if from < k {
      FirstGoodFrom(infos, from + 1, k);
    }
  }

  lemma BatchIds(chunks: seq<Chunk>)
    ensures VideoIdsOf(Batch(chunks, true)) == IdList(chunks) && AudioIdsOf(Batch(chunks, true)) == []
    ensures AudioIdsOf(Batch(chunks, false)) == IdList(chunks) && VideoIdsOf(Batch(chunks, false)) == []
    ensures VideoIdsOf([End]) == [] && AudioIdsOf([End]) == []
    ensures End !in Batch(chunks, true) && End !in Batch(chunks, false)
  {
  }

  /** The ids a successful poll announces, per track, and where "end" is. */
  lemma EventsIds(vChunks: seq<Chunk>, aChunks: seq<Chunk>, tail: seq<ObserverEvent>)
    requires tail == [] || tail == [End]
    ensures var ev := Batch(vChunks, true) + Batch(aChunks, false) + tail;
      && VideoIdsOf(ev) == IdList(vChunks) && AudioIdsOf(ev) == IdList(aChunks)
      && (End in ev <==> tail == [End])
  {
    var ve := Batch(vChunks, true);
    var ae := Batch(aChunks, false);
    BatchIds(vChunks);
    BatchIds(aChunks);
    EventIdsConcat(ve, ae);
    EventIdsConcat(ve + ae, tail);
    assert VideoIdsOf(ve + ae + tail) == IdList(vChunks) + [] + [];
    assert AudioIdsOf(ve + ae + tail) == [] + IdList(aChunks) + [];
  }

  lemma EventIdsConcat(a: seq<ObserverEvent>, b: seq<ObserverEvent>)
    ensures VideoIdsOf(a + b) == VideoIdsOf(a) + VideoIdsOf(b)
    ensures AudioIdsOf(a + b) == AudioIdsOf(a) + AudioIdsOf(b)
  {
    VideoIdsConcat(a, b);
    AudioIdsConcat(a, b);
  }

  lemma {:induction false} VideoIdsConcat(a: seq<ObserverEvent>, b: seq<ObserverEvent>)
    ensures VideoIdsOf(a + b) == VideoIdsOf(a) + VideoIdsOf(b)
    decreases |a|
  {
    if a == [] {
      assert a + b == b;
    } else {
      var head := if a[0].NewVideoChunks? then IdList(a[0].chunks) else [];
      assert VideoIdsOf(a + b) == head + VideoIdsOf(a[1..] + b) by {
        assert (a + b)[0] == a[0] && (a + b)[1..] == a[1..] + b;
      }
      VideoIdsConcat(a[1..], b);
      assert head + (VideoIdsOf(a[1..]) + VideoIdsOf(b)) == (head + VideoIdsOf(a[1..])) + VideoIdsOf(b);
    }
  }

  lemma {:induction false} AudioIdsConcat(a: seq<ObserverEvent>, b: seq<ObserverEvent>)
    ensures AudioIdsOf(a + b) == AudioIdsOf(a) + AudioIdsOf(b)
    decreases |a|
  {
    if a == [] {
      assert a + b == b;
    } else {
      var head := if a[0].NewAudioChunks? then IdList(a[0].chunks) else [];
      assert AudioIdsOf(a + b) == head + AudioIdsOf(a[1..] + b) by {
        assert (a + b)[0] == a[0] && (a + b)[1..] == a[1..] + b;
      }
      AudioIdsConcat(a[1..], b);
      assert head + (AudioIdsOf(a[1..]) + AudioIdsOf(b)) == (head + AudioIdsOf(a[1..])) + AudioIdsOf(b);
    }
  }

  /** Appending a batch that is fresh with respect to the flags keeps the
      announced list free of repeats. */
  lemma EmitKeepsDistinct(emitted: seq<nat>, chunks: seq<Chunk>, seen: set<nat>)
    requires Distinct(emitted) && forall i :: 0 <= i < |emitted| ==> emitted[i] in seen
    requires DistinctIds(chunks) && forall i :: 0 <= i < |chunks| ==> chunks[i].id !in seen
    ensures Distinct(emitted + IdList(chunks))
  {
    var all := emitted + IdList(chunks);
    forall i, j | 0 <= i < j < |all| ensures all[i] != all[j] {
      if j >= |emitted| {
        if i >= |emitted| {
          assert all[i] == chunks[i - |emitted|].id;
        }
        assert all[j] == chunks[j - |emitted|].id;
      }
    }
  }
}
