# kkr live downloader — a Dafny model

This project models the core of kkr, a downloader for YouTube live streams.

**Observer.** `YouTubeObserver` waits until a broadcast is live and reads the stream facts from the watch page. It then polls the stream's DASH manifest (an MPD document). It announces every media segment once, by the segment number (`/sq/<n>/`) in its URL. It announces "end" when the manifest turns static.

**Live downloader.** `LiveDownloader` turns the announced segments into download tasks. It runs them through a queue with a thread limit and up to ten retries per task. Once the stream has ended and the queue has drained, `beforeExit` reconciles what was downloaded:
- it sorts the finished tasks by segment number;
- it keeps the video segments whose audio segment also arrived;
- it cuts them into runs of consecutive numbers;
- it decides how to join each run: byte-wise concatenation ("direct"), or ffmpeg's concat demuxer fed by list files;
- it builds one ffmpeg mux command per output.

**Non-live downloader.** `Downloader` handles a stream that has already ended. It makes the same join decision.

**Supporting modules.**
- The manifest walk (`parseMpd` after the XML parse).
- Format selection.
- Video-id extraction and the flags of `getVideoInfo`.
- The ffprobe verdict of `analyseConcatMethod`.
- File-name escaping.
- The JavaScript built-ins the code relies on: `split`/`join`, `parseInt`, `find`, `filter`, `sort`.

**How the model is built.**
- Stateful objects are classes whose methods update their fields, with `modifies` frames.
- Asynchronous callbacks are method calls.
- The network, the clock, the file system and child processes are inputs.
- Pure helpers are functions, each with lemmas that state what the source promises.

Modules:
- `Wrappers`: `Option`/`Result`.
- `JsText`, `JsArray`: the JavaScript built-ins.
- `EscapeFilename`.
- `AnalyseConcatMethod`.
- `MpdParser`.
- `SelectFormat`.
- `VideoMuxing`: class `VideoMuxer`.
- `YouTube`.
- `Observer`: class `YouTubeObserver`.
- `ConcatDecision`: the decision and the list files shared by both downloaders.
- `Reconcile`: the pure part of `beforeExit`.
- `LiveDownloading`: class `LiveDownloader`.
- `Downloading`: class `Downloader`.

## Model

| member | source | states |
|---|---|---|
| AnalyseConcatMethod.Ordinal | src/utils/analyse_concat_method.ts:4-8 | UNKNOWN is 0, the only falsy member; no ordinal exceeds 2 |
| AnalyseConcatMethod.FromOrdinal | src/utils/analyse_concat_method.ts:4-8 | a number names a member exactly when it is 0, 1 or 2, and that member's ordinal is the number |
| AnalyseConcatMethod.ProbeIgnoresFirstFile | src/utils/analyse_concat_method.ts:10-20 | the ffprobe command does not depend on the first file, only the second is inspected |
| AnalyseConcatMethod.Classify | src/utils/analyse_concat_method.ts:11-31 | UNKNOWN exactly when the 25000 ms timer fires first or there is no first packet (failed command, unparsable output, missing or empty `packets`); FFMPEG_CONCAT exactly when the first packet's pts is 0; DIRECT_CONCAT otherwise |
| ConcatDecision.StrictOverride | src/core/live_downloader.ts:275-277 | the live downloader's option overrides exactly when it is truthy, and selects direct joining exactly when it is the number 1 (DIRECT_CONCAT) |
| ConcatDecision.CoercedOverride | src/core/downloader.ts:70-72 | the stored `+concatMethod` overrides only when the option was truthy, and selects direct joining exactly when unary plus gives 1 |
| ConcatDecision.CoerceDigit | src/core/downloader.ts:71 | unary plus reads a one-digit text as that digit |
| ConcatDecision.OverridesOnNumbers | src/core/downloader.ts:133-136 | on a number option both downloaders reach the same override |
| ConcatDecision.OverridesDisagree | src/core/downloader.ts:133-136 | on the text "1" and on a bare `true` flag the non-live downloader joins directly, the live one through ffmpeg's concat demuxer |
| ConcatDecision.Decide | src/core/live_downloader.ts:272-318 | an override decides alone, with no guessing and no probe; ffprobe runs exactly when there is no override, ffprobe is available and there is more than one chunk; the method is guessed exactly when there is no override and either ffprobe is missing or the probe says UNKNOWN; a guess joins directly exactly for a non-premiere low-latency stream; otherwise direct exactly for a single chunk or a DIRECT_CONCAT verdict |
| ConcatDecision.NameOfListLine | src/core/live_downloader.ts:358-363 | a list line `file '<dir>/<name>'` reads back as its chunk name |
| ConcatDecision.ListFileRoundTrip | src/core/live_downloader.ts:358-369 | split on "\n", a list file gives one line per chunk, each naming its chunk, in order, when no name and not the directory holds a line break |
| Downloading.OutputFilenameShape | src/core/downloader.ts:101 | the output name is the escaped title followed by ".mp4", holds no forbidden character and ends in ".mp4" |
| Downloading.AudioListFromVideoNames | src/core/downloader.ts:208-213 | the audio list file as written names the video listing's entries under the audio directory, one per video file, whatever the audio listing holds |
| Downloading.AudioSegmentLeftOut | src/core/downloader.ts:202-213 | with one video file and two audio files, the audio list as written has one line, so the second audio segment is never muxed |
| Downloading.AudioListNamesAudio | src/core/downloader.ts:208-213 | the audio list built from the audio listing names exactly the downloaded audio files, in order |
| Downloading.Downloader.constructor | src/core/downloader.ts:54-77 | falsy options leave the defaults: 10 threads, no override (`+concatMethod` checked for truthiness), headers enabled exactly for a non-empty text |
| Downloading.Downloader.Download | src/core/downloader.ts:79-224 | a missing or empty MPD URL is the DownloadError; otherwise the output is named after the escaped title; the files are left unmerged exactly when there is an address and no ffmpeg; with no override, ffprobe available and no video file, reading the first entry fails; in every other case with an address and ffmpeg the muxer runs, and the decision is the one `Decide` promises (a single video file joins directly); the joining is the chunk files and the two joined files, or the two list files, the audio one built from the audio listing (the corrected list, see Findings); temporary files are kept without ffprobe or when the method was guessed |
| EscapeFilename.Escape | src/utils/escape_filename.ts:2 | the result is no longer than the name and holds none of `/ * \ : \| ? < > "` |
| EscapeFilename.EscapeConcat | src/utils/escape_filename.ts:2 | escaping distributes over concatenation |
| EscapeFilename.EscapeChar | src/utils/escape_filename.ts:2 | a single character is deleted exactly when it is one of the forbidden ones |
| EscapeFilename.EscapeCounts | src/utils/escape_filename.ts:2 | every allowed character occurs as often as before, every forbidden one not at all |
| EscapeFilename.EscapeClean | src/utils/escape_filename.ts:2 | a name with nothing forbidden is unchanged |
| EscapeFilename.EscapeIdempotent | src/utils/escape_filename.ts:2 | escaping twice is escaping once |
| EscapeFilename.EscapeLength | src/utils/escape_filename.ts:2 | the length is kept exactly when nothing was forbidden |
| JsArray.FindIndex | src/utils/select_format.ts:16-17 | the index of the first element satisfying the predicate; none exactly when no element does |
| JsArray.Find | src/core/mpd_parser.ts:27-28 | some element exactly when one satisfies the predicate, and then the first such |
| JsArray.Insert | src/core/live_downloader.ts:224 | one insertion step of the sort adds the element and keeps every other |
| JsArray.SortBy | src/core/live_downloader.ts:224 | the sort is a permutation |
| JsArray.InsertSorted | src/core/live_downloader.ts:224 | inserting into a key-sorted list with a key-comparing comparator keeps it sorted |
| JsArray.SortBySorted | src/core/live_downloader.ts:224 | with a comparator that compares keys, the sort is ascending by key |
| JsArray.Filter | src/core/live_downloader.ts:225-226 | the kept elements all satisfy the predicate, every satisfying element is kept, and nothing is added |
| JsArray.FilterSorted | src/core/live_downloader.ts:239-244 | filtering a sorted list leaves it sorted |
| JsArray.FilterPartition | src/core/live_downloader.ts:225-226 | a filter and its complement together hold every element exactly once |
| JsText.ContainsAt | src/core/services/api/youtube.ts:12 | an occurrence at any position makes `includes` true |
| JsText.Split | src/core/live_downloader.ts:88-89 | at least one piece, no piece holds the separator, and two or more pieces exactly when the separator occurs |
| JsText.JoinSplit | src/core/live_downloader.ts:93 | joining the pieces of a split gives the text back |
| JsText.SplitJoin | src/core/live_downloader.ts:361-362 | splitting a join of separator-free pieces gives the pieces back |
| JsText.SplitFirst | src/core/live_downloader.ts:89-93 | the first piece is the text before the first separator, and the other pieces re-joined are the text after it |
| JsText.NatToString | src/core/live_downloader.ts:154 | the rendering of a number is a non-empty digit string with no leading zero except "0" itself |
| JsText.NatToStringValue | src/core/live_downloader.ts:154 | the rendering reads back as the number |
| JsText.ParseIntOfNatToString | src/core/services/api/youtube_observer.ts:153 | `parseInt` inverts the decimal rendering |
| JsText.ParseIntOfDigits | src/core/services/api/youtube_observer.ts:153 | `parseInt` reads a digit string, leading zeros included, as its decimal value |
| LiveDownloading.ParseHeaders | src/core/live_downloader.ts:87-94 | the header text is rejected exactly when one of its "\n"-separated lines has no ":"; otherwise the headers are the lines assigned in order |
| LiveDownloading.HeaderLineCut | src/core/live_downloader.ts:89-93 | a line's name is the text before its first ":" and its value everything after, later colons included |
| LiveDownloading.HeaderLastWins | src/core/live_downloader.ts:93 | every named header is present with the value of its last line |
| LiveDownloading.HeaderNamesFromLines | src/core/live_downloader.ts:93 | no header appears that no line names |
| LiveDownloading.Timeout | src/core/live_downloader.ts:414 | a download timeout lies between 15000 and 45000 ms |
| LiveDownloading.TimeoutSteps | src/core/live_downloader.ts:414 | 15000 ms for the first attempt, 30000 for the second, 45000 for every later one, never decreasing |
| LiveDownloading.NewTasks | src/core/live_downloader.ts:146-173 | one task per announced segment, in batch order: its url and number, retry 0, the batch's kind, saved as `<work>/<kind>_download/<id>` |
| LiveDownloading.DispatchCount | src/core/live_downloader.ts:187-195 | one queue check starts no more tasks than are queued and never goes past the thread limit |
| LiveDownloading.LiveDownloader.constructor | src/core/live_downloader.ts:64-104 | the options as given, 10 threads unless a truthy count is given, empty queues, no task running, neither flag set, and the scheduler invariant |
| LiveDownloading.LiveDownloader.Create | src/core/live_downloader.ts:87-94 | construction throws exactly when the header text is non-empty and one of its lines has no ":"; otherwise the headers are the lines assigned in order, and the scheduler invariant holds |
| LiveDownloading.LiveDownloader.Start | src/core/live_downloader.ts:106-145 | temporary files are kept when ffprobe is missing and there is no override, whatever connect gives; a connect that gave up ends `start` with the TypeError of reading `title` of undefined, and one still waiting never returns, both leaving the stream facts unset; a connected stream records the escaped title and the stream's flags |
| LiveDownloading.LiveDownloader.CheckQueue | src/core/live_downloader.ts:180-195 | the exit reconciliation starts, once, exactly when nothing runs, the queue is empty, the stream has stopped and the latch was not set; the queue's head is started up to the thread limit, in order; the running count stays the number of tasks under way, within the limit, and no task is lost |
| LiveDownloading.LiveDownloader.Dispatch | src/core/live_downloader.ts:193-194 | the head of the queue moves to the running tasks and the running count grows by one |
| LiveDownloading.LiveDownloader.OnNewChunks | src/core/live_downloader.ts:146-173 | the new tasks join the queue's tail in batch order, then the queue check runs; the finish flag is set exactly when that check starts the exit |
| LiveDownloading.LiveDownloader.Complete | src/core/live_downloader.ts:197-215 | a settled download leaves the running set; success appends it to the finished tasks; failure counts the attempt and re-queues it at the tail while it has failed at most 10 times, else drops it; then the queue check runs; the finish flag is set exactly when that check starts the exit |
| LiveDownloading.LiveDownloader.Settle | src/core/live_downloader.ts:198-213 | the bookkeeping of one settled download keeps every task in exactly one list and the running count equal to the tasks under way |
| LiveDownloading.LiveDownloader.OnEnd | src/core/live_downloader.ts:174-177 | "end" sets the stop flag and runs the queue check: the queue's head goes to the running list up to the thread cap, and the exit starts exactly when nothing runs or waits and it had not started before, and the finish flag records it |
| LiveDownloading.LiveDownloader.Interrupt | src/core/live_downloader.ts:124-134 | the first Ctrl+C sets the stop flag and runs the queue check, with the dispatch, the new queue, running list and finish flag that check promises; a second one forces the exit and changes nothing else |
| LiveDownloading.LiveDownloader.Merge | src/core/live_downloader.ts:419-438 | the mux command for one output puts the video file before the audio file, and targets the title with `_<suffix>` when the suffix is truthy, plus ".mp4" |
| LiveDownloading.LiveDownloader.BeforeExit | src/core/live_downloader.ts:218-388 | nothing finished means exit with nothing to do; otherwise the finished tasks are sorted by number and grouped as `GroupFinished` promises; a merged outcome holds the decision `Decide` promises, one output per run and one record per successful mux; temporary files are kept when the method was guessed or a mux through list files failed |
| LiveDownloading.LiveDownloader.ReconcileSorted | src/core/live_downloader.ts:225-386 | from the sorted tasks: a count mismatch or no kept video segment ends without outputs, and otherwise the runs are concluded |
| LiveDownloading.LiveDownloader.Conclude | src/core/live_downloader.ts:272-386 | the decision is the one `Decide` promises, with "single chunk" meaning the runs hold one task; each run becomes one output; the temporary files become kept when the method was guessed or a mux through list files failed |
| LiveDownloading.LiveDownloader.EmitOutputs | src/core/live_downloader.ts:319-386 | output `i` is the run's target (suffixed `_<i+1>` when there are several runs), its `#first - #last` description and its joining; a record is added per successful mux; the temporary files become kept when some mux through list files failed |
| LiveDownloading.LiveDownloader.RecordMux | src/core/live_downloader.ts:339-384 | a successful mux adds its record; a failed one through list files keeps the temporary files |
| LiveDownloading.SomeMuxFailedIff | src/core/live_downloader.ts:380-384 | "some mux failed" is the existential over the outputs it names |
| LiveDownloading.GroupRuns | src/core/live_downloader.ts:250-270 | the runs hold the kept tasks in order, none is empty, there is one run under `forceMerge`, and maximal runs of consecutive numbers without it |
| LiveDownloading.GroupFinished | src/core/live_downloader.ts:225-259 | unequal video and audio counts are a mismatch; with no video segment paired the grouping is "unpaired"; the dropped count is the number of unpaired video segments; otherwise the runs are as `GroupRuns` promises |
| LiveDownloading.Requeued | src/core/live_downloader.ts:208-209 | a failed task goes back to the queue exactly when it had failed fewer than 10 times |
| LiveDownloading.Dropped | src/core/live_downloader.ts:210-212 | a failed task is dropped exactly when it had already failed 10 times |
| LiveDownloading.SettleOnce | src/core/live_downloader.ts:200-213 | a settled task ends up in exactly one of finished, re-queued or dropped, with its number kept |
| LiveDownloading.MuxPair | src/core/live_downloader.ts:421-436 | the muxer's command over one video and one audio file, in that order, writing the target, renamed with `_<now>` when it exists |
| LiveDownloading.MergeTargetOfRun | src/core/live_downloader.ts:421 | the name `merge` gives the muxer for run `i` is the output target, with extension ".mp4" and the title plus `_<i+1>` before it when suffixed |
| MpdParser.RepresentationList | src/core/mpd_parser.ts:29-31 | a single Representation is taken as a list of one, an array as itself; a missing one is the TypeError |
| MpdParser.TrackUrlsOrder | src/core/mpd_parser.ts:38-45 | a track's urls are the BaseURL plus the Initialization source first when present, then the BaseURL plus each SegmentURL in document order |
| MpdParser.BuildTrack | src/core/mpd_parser.ts:33-46 | a Representation without a segment array is the TypeError; otherwise its track |
| MpdParser.BuildTracks | src/core/mpd_parser.ts:32-47 | one track per Representation, in document order, or the TypeError when one lacks a segment array |
| MpdParser.SortByBitrateDescending | src/core/mpd_parser.ts:67-68 | the bitrate sort keeps every track and, when every bitrate is a number, puts the highest first |
| MpdParser.ParseMpd | src/core/mpd_parser.ts:15-70 | the walk succeeds exactly when there is an AdaptationSet array with a video and an audio set whose Representations all have segment arrays; the track lists are then built and sorted by bitrate, and the raw document is kept |
| MpdParser.AdaptationChoice | src/core/mpd_parser.ts:27-28 | the video tracks come from the first AdaptationSet whose mimeType starts with "video", the audio tracks likewise |
| Observer.FirstSq | src/core/services/api/youtube_observer.ts:153 | the leftmost match of `/sq/<digits>/` at or after a position, or none anywhere |
| Observer.SqDigits | src/core/services/api/youtube_observer.ts:153 | the captured group is a non-empty digit string |
| Observer.SqId | src/core/services/api/youtube_observer.ts:153-154 | a URL has a segment number exactly when the pattern captures a digit string |
| Observer.SqIdParses | src/core/services/api/youtube_observer.ts:153 | the segment number is what `parseInt` reads from the captured digits, so it is never NaN |
| Observer.SqIdRoundTrip | src/core/services/api/youtube_observer.ts:153 | a URL built around `/sq/<n>/` gives back `n` when no earlier `/sq/` occurs |
| Observer.SqDigitsFound | src/core/services/api/youtube_observer.ts:153 | the digits between the first `/sq/` and the next `/` are the captured group |
| Observer.NoSqWithoutSlash | src/core/services/api/youtube_observer.ts:153 | a URL without "/" has no segment number |
| Observer.ScanFresh | src/core/services/api/youtube_observer.ts:151-165 | a batch holds distinct numbers, none flagged before, and the flags afterwards are the old ones plus the batch's |
| Observer.ScanComplete | src/core/services/api/youtube_observer.ts:151-165 | the loop fails exactly when some URL has no segment number; when it does not fail, every segment of the manifest is flagged afterwards |
| Observer.ScanOrder | src/core/services/api/youtube_observer.ts:151-165 | the batch lists its segments in manifest order |
| Observer.ScanIds | src/core/services/api/youtube_observer.ts:151-165 | each segment of a batch carries the number its URL names |
| Observer.CollectNew | src/core/services/api/youtube_observer.ts:151-165 | the diff loop of one track computes the batch, the flags and the failure `Scan` specifies |
| Observer.PollEvents | src/core/services/api/youtube_observer.ts:129-191 | a poll emits at most a video batch, then an audio batch, then "end"; batches are never empty; "end" comes exactly when the poll succeeds on a static manifest, never after a failure |
| Observer.LostBeforeBadUrl | src/core/services/api/youtube_observer.ts:151-168 | a video URL without a segment number after a new segment flags that segment but announces nothing |
| Observer.LowLatencyInterval | src/core/services/api/youtube_observer.ts:71-77 | a low-latency stream polls every 3000 ms exactly when its latency class ends in "ULTRA_LOW", else every 4000 ms |
| Observer.FirstOnline | src/core/services/api/youtube_observer.ts:40-57 | the first heartbeat that reports the stream live, if any |
| Observer.FirstGood | src/core/services/api/youtube_observer.ts:59-96 | the first of the info attempts that succeeds, if any |
| Observer.YouTubeObserver.constructor | src/core/services/api/youtube_observer.ts:20-36 | a 5000 ms poll interval, no manifest URL, no timer armed, nothing flagged or announced |
| Observer.YouTubeObserver.Poll | src/core/services/api/youtube_observer.ts:129-191 | a failed fetch is the NetworkError with the flags unchanged; otherwise the events, the error and the new flags are what `PollSpec` gives; the announced numbers grow by the events' numbers and never repeat; "end" disarms the poll timer |
| Observer.YouTubeObserver.DiffVideo | src/core/services/api/youtube_observer.ts:151-168 | the video flags become the scan's; the batch is announced only when the loop did not stop early |
| Observer.YouTubeObserver.DiffAudio | src/core/services/api/youtube_observer.ts:169-186 | the same for the audio track |
| Observer.YouTubeObserver.Disconnect | src/core/services/api/youtube_observer.ts:108-111 | both timers are cleared |
| Observer.YouTubeObserver.Connect | src/core/services/api/youtube_observer.ts:38-106 | the heartbeat loop sleeps 15000 ms after "offline" and 3000 ms after a failure until the stream is live; the first good info attempt of three sets the manifest URL and the interval (4000 ms, 3000 ms for ULTRA_LOW, unchanged if not low-latency) and arms the poll timer; after three failures the hourly refresh is armed, nothing is returned, and the manifest URL is the last one a successful request gave |
| SelectFormat.First | src/utils/select_format.ts:12-13 | the first track, undefined exactly for an empty list |
| SelectFormat.FormatIds | src/utils/select_format.ts:15 | one id per "+"-separated part, each read by `parseInt` |
| SelectFormat.Select | src/utils/select_format.ts:8-30 | a track is selected exactly when its list is non-empty, and the selected one is from its list |
| SelectFormat.SelectNoFormat | src/utils/select_format.ts:11-13 | without a format the first track of each list is taken |
| SelectFormat.ChooseFirstNamed | src/utils/select_format.ts:16-24 | with a format, the first track in list order whose id the format names; when none is named, the first track |
| SelectFormat.SelectIndependent | src/utils/select_format.ts:16-24 | the video choice does not depend on the audio list |
| SelectFormat.ChooseByIdSet | src/utils/select_format.ts:15-17 | only which ids the format names matters, not their order or repetition |
| SelectFormat.FormatIdsOfPair | src/utils/select_format.ts:15 | `x+y` gives the ids of `x` and `y`, in that order |
| SelectFormat.SelectSwap | src/utils/select_format.ts:15-17 | `x+y` and `y+x` select the same tracks |
| VideoMuxing.Base | src/utils/video_muxer.ts:35 | the base name holds no "/" |
| VideoMuxing.ExtStart | src/utils/video_muxer.ts:35-37 | the extension starts at the last dot of the base, unless there is none, the only dot begins the name, or the base is ".." |
| VideoMuxing.NameExt | src/utils/video_muxer.ts:35-37 | name followed by extension is the base again; the extension is empty or one dot then dot-free text |
| VideoMuxing.Mp4Ext | src/utils/video_muxer.ts:35-37 | a base ending in ".mp4" with something before it has extension ".mp4" and the rest as its name |
| VideoMuxing.InputArgsConcat | src/utils/video_muxer.ts:53-55 | the input clauses of two track lists are the clauses of each, in order |
| VideoMuxing.MapArgsConcat | src/utils/video_muxer.ts:57-65 | the map clauses of two track lists are those of the first then those of the second, numbered on from its length |
| VideoMuxing.InputsLineUp | src/utils/video_muxer.ts:50-55 | input clause `k` names track `k`'s file |
| VideoMuxing.MapsLineUp | src/utils/video_muxer.ts:57-65 | the map clauses split at track `k`, and the clause there maps input `k` with track `k`'s kind, so inputs and maps line up |
| VideoMuxing.MapArgNumber | src/utils/video_muxer.ts:60-63 | the number printed in map clause `k` reads back as `k` |
| VideoMuxing.VideoMuxer.constructor | src/utils/video_muxer.ts:30-42 | the name and the extension of the path's base, and no tracks |
| VideoMuxing.VideoMuxer.Create | src/utils/video_muxer.ts:30-42 | construction throws exactly for an empty path; otherwise name plus extension is the path's base |
| VideoMuxing.VideoMuxer.AddVideoTracks | src/utils/video_muxer.ts:43-45 | the tracks are appended after the earlier ones |
| VideoMuxing.VideoMuxer.AddAudioTracks | src/utils/video_muxer.ts:46-48 | the tracks are appended after the earlier ones |
| VideoMuxing.VideoMuxer.Run | src/utils/video_muxer.ts:49-73 | "ffmpeg ", the video then the audio inputs, a map clause per input by position, and the output clause for the target; the name gets `_<now>` when the target exists |
| VideoMuxing.AppendInputs | src/utils/video_muxer.ts:53-55 | the input loop appends every track's input clause in order |
| VideoMuxing.AppendMaps | src/utils/video_muxer.ts:57-65 | the map loop appends clause `i` for track `i` |
| VideoMuxing.CommandInputsFirst | src/utils/video_muxer.ts:50-55 | the command starts with "ffmpeg ", then the video inputs, then the audio inputs |
| VideoMuxing.OutputClauseCases | src/utils/video_muxer.ts:69-73 | only ".mkv" and ".mp4" paths get an output clause, and it ends with the quoted target |
| YouTube.FirstMatch | src/core/services/api/youtube.ts:13-15 | the leftmost position where the pattern matches, or none anywhere |
| YouTube.GetVideoIdByUrl | src/core/services/api/youtube.ts:7-20 | the ParseError comes exactly for an empty URL or one naming neither "youtube.com" nor "youtu.be" |
| YouTube.GetVideoIdChoice | src/core/services/api/youtube.ts:12-18 | "youtube.com" selects the `v=` pattern first, "youtu.be" the short-link pattern; the id is the group of the leftmost match |
| YouTube.IdShape | src/core/services/api/youtube.ts:13-15 | an id is non-empty, holds no line terminator and no `&` after its first character, and is read from a place in the URL where the pattern matches |
| YouTube.WatchUrlRoundTrip | src/core/services/api/youtube.ts:26-27 | the id read back from the watch-page address is the id it was built from |
| YouTube.ShortUrlRoundTrip | src/core/services/api/youtube.ts:14-15 | `https://youtu.be/<id>` gives back its id |
| YouTube.Truthy | src/core/services/api/youtube.ts:55-58 | `!!x` of an optional flag is true exactly when it is present and true |
| YouTube.ErrorReason | src/core/services/api/youtube.ts:46-48 | the error reason, when there is one, is a non-empty text |
| YouTube.GetVideoInfo | src/core/services/api/youtube.ts:25-67 | a bad URL gives its error; success needs a page with streaming data; the playability error is raised exactly when streaming data is missing and a reason is present |
| YouTube.InfoFlags | src/core/services/api/youtube.ts:54-58 | a premiere is live but not live content; missing details make every flag false; the MPD URL is the dash manifest URL |
| YouTube.NoStreamingData | src/core/services/api/youtube.ts:45-53 | without streaming data the error carries `simpleText`, else the first run's text, else "not a live stream" |
| Reconcile.SortByIdOrders | src/core/live_downloader.ts:224 | sorting keeps every finished task and orders them by segment number |
| Reconcile.KeepPairedExact | src/core/live_downloader.ts:234-244 | the kept video tasks are exactly those with an audio task of the same number, in their order, and stay sorted |
| Reconcile.DroppedCountIsRemoved | src/core/live_downloader.ts:239-247 | the intended drop counter is the number of video tasks the filter removed |
| Reconcile.DropCounterStaysZero | src/core/live_downloader.ts:240-242 | video 1 and 2 against audio 2 and 3: one video segment is discarded, but the counter as written stays 0 |
| Reconcile.FirstRunSeedAsWritten | src/core/live_downloader.ts:251 | the first run is seeded with undefined exactly when no video task was kept |
| Reconcile.NoPairsReachesUndefined | src/core/live_downloader.ts:250-251 | video 1 against audio 2: the counts are equal, no video task is kept, and the first run holds undefined |
| Reconcile.Runs | src/core/live_downloader.ts:250-259 | the grouping of the first `n` tasks has a last run, and it ends with task `n - 1` |
| Reconcile.RunsAreSplit | src/core/live_downloader.ts:250-259 | the runs of the first `n` tasks are maximal runs of consecutive numbers that together are those tasks |
| Reconcile.SplitRuns | src/core/live_downloader.ts:250-259 | the run-building loop gives the runs `Runs` specifies |
| Reconcile.StartRun | src/core/live_downloader.ts:254-257 | a task whose number does not follow the last one starts a new run and keeps the split maximal |
| Reconcile.ExtendRun | src/core/live_downloader.ts:254-257 | a task whose number follows the last one extends the last run and keeps the split maximal |
| Reconcile.ForceMerge | src/core/live_downloader.ts:261-264 | forcing the merge of several runs gives one run with the same tasks; a single run, or no forcing, changes nothing |
| Reconcile.ConsecutiveNumbers | src/core/live_downloader.ts:254-257 | each number of a run is its first number plus its position |
| Reconcile.TargetsDistinct | src/core/live_downloader.ts:421 | with suffixes, different runs get different file names |
| Reconcile.TargetIsMp4 | src/core/live_downloader.ts:421 | the muxer sees an ".mp4" extension and the title with its suffix as the name |
| Reconcile.DescriptionSpan | src/core/live_downloader.ts:343 | the description names the first and the last number of a run, which are its length minus one apart |
| Reconcile.ChunkPaths | src/core/live_downloader.ts:326-328 | the file of each chunk of a run is `<dir>/<id>`, in run order |

## Left out

- Network, timers and processes are inputs or left out: the HTTP requests, `setTimeout`/`setInterval`, `process.exit`, the SIGINT hook, the logger, the file system (`mkdirSync`, `readdirSync`, `writeFileSync`, deleting the work directory) and the ffmpeg and ffprobe child processes (`CommandExecuter`, `execCommand`). `merge_files` and `download_file` are not part of this model.
- Parsing is an input: the XML parse (fast-xml-parser) gives the tree that `MpdParser.Mpd` describes. The page scraping and `JSON.parse` of the watch page give a `YouTube.PlayerResponse`. The heartbeat request gives an `Observer.Heartbeat`.
- Paths are plain concatenation, `<work>/<kind>_download/<id>`. `path.resolve` normalisation and making paths absolute are not modelled. `path.parse` is modelled for POSIX separators only.
- Names that hold the clock are not modelled: the work directory `kkr_download_<now>` is an input, and the names of the list files (`video_files_<now>.txt`) are left out, though their contents are modelled.
- Headers: a plain map. A header named `__proto__` and the merge into the HTTP client's defaults are not modelled.
- JavaScript numbers are unbounded integers or NaN. Double-precision rounding of long digit strings is not modelled.
- ConcatDecision.CoercedOverride: its `Coerce` reads numbers, flags and decimal digit texts between white space, as unary plus does. Texts with a decimal point ("1.0", "1.", ".5"), hexadecimal, exponent, sign and "Infinity" texts are read as NaN rather than as their numbers. So "1.0" gives no override here, while the program overrides with direct joining.
- LiveDownloading.LiveDownloader.Merge: `mergeSequences` passes `VideoSequence`/`AudioSequence` objects that src/utils/video_muxer.ts:93-97 does not export. Both merge paths are therefore modelled as one muxer run over two input files. The `cooldown` option is ignored by the downloader it is passed to, and is left out.
- LiveDownloading.LiveDownloader.BeforeExit: whether each mux succeeds (`muxOk`) and the ffprobe verdict (`probe`) are inputs. The exit after a count mismatch is an outcome; `clean`'s deletion and summary messages are left out.
- LiveDownloading.LiveDownloader.BeforeExit: it follows the corrected grouping (`GroupFinished`), not the program's, in two ways (see Findings).
  - The reported drop count is the intended `DroppedCount`. The program's counter stays 0 (`DropCounterAsWritten`).
  - With equal counts and no pair it stops cleanly with `NoPairs`. The program goes on to the decision, so it sets `keepTemporaryFiles` when guessing. It then throws a TypeError reading `.id` of undefined and ends without cleanup or the summary.
- LiveDownloading.LiveDownloader.ReconcileSorted: the same two replacements as `BeforeExit`.
- LiveDownloading.GroupFinished: the intended grouping, as `BeforeExit` uses it. Its `Unpaired` result stands where the program throws, and its dropped count is the intended one.
- LiveDownloading.OutputItem: the muxer's "success" event carries no file name, so each recorded path is undefined (`None`).
- LiveDownloading.LiveDownloader.Valid: tasks are conserved as a count: every task ever queued is in exactly one of the four lists. The model does not track task identity across the lists as a multiset.
- Observer.YouTubeObserver.Connect: the endless heartbeat loop is bounded by the answers given (`StillWaiting` when none is live). Exactly three info results are given, one per attempt, and those after a success are ignored. The hourly refresh's later requests are not modelled; only its being armed is (`refreshing`).
- An absent `format` or header text is given as `""`, which is falsy just like undefined.
- Downloading.Downloader.Download: the list-file joining writes the corrected audio list (`AudioListFor`, built from the audio listing). The program builds it from the video names (src/core/downloader.ts:208-213, modelled by `AudioListAsWritten`). With video files 0, 1 and audio files 0, 2, the model's audio list names 0 and 2; the program's names 0 and 1.
- Downloading.Downloader.Download: the MPD fetch, format selection and downloads are inputs, given as the two directory listings in the order `readdirSync` returns them. The final muxer run is not modelled: the list-file branch calls `addVideoSequences`, which src/utils/video_muxer.ts does not define. A missing selected track (a TypeError) is not modelled.
- MpdParser.ParseMpd: the model always has a BaseURL text, an AdaptationSet mimeType, and attributes on the MPD root. Three cases it does not cover:
  - an absent BaseURL, which the program concatenates as the prefix "undefined";
  - a missing mimeType, a TypeError inside `find`;
  - an MPD root without attributes, a TypeError at src/core/services/api/youtube_observer.ts:187;
  - a Representation without a SegmentList, which reads `Initialization` of undefined, a TypeError at src/core/mpd_parser.ts:40-41 (audio: :56-57).
- LiveDownloading.LiveDownloader.Interrupt: the downloader holds no observer, so the observer's `disconnect` on the first Ctrl+C (src/core/live_downloader.ts:127) and in `clean` (:395) is not modelled; polling ends in the model only through the observer's own `Disconnect`.
- MpdParser.SortByBitrateDescending: with a NaN bitrate the comparator is inconsistent and the engine's order is unspecified. Only the permutation is stated then.

## Findings

| source | as written | input that shows it | evidently intended | confidence | as-written member | corrected member |
|---|---|---|---|---|---|---|
| src/core/live_downloader.ts:240-242 | `if (!audioIdFlags) dropCounter++` tests the flags array itself, which is always truthy, so the counter never moves and the drop warning is never logged | finished video 1, 2 and audio 2, 3 | count the video tasks without an audio twin (`!audioIdFlags[t.id]`) | not executed | Reconcile.DropCounterStaysZero | Reconcile.DroppedCountIsRemoved |
| src/core/live_downloader.ts:250-251 | with equal counts but no video task paired, `seqs` starts as `[[undefined]]` and the output loop reads `.id` of undefined, a TypeError outside any `try`, so the run ends without cleanup or the summary | finished video 1 and audio 2 | stop with nothing to merge when no video task is kept | not executed | Reconcile.NoPairsReachesUndefined | LiveDownloading.GroupFinished |
| src/core/downloader.ts:208-213 | the audio list file is built from the video file names | one video file "0", audio files "0" and "1" | build the audio list from the downloaded audio files | not executed | Downloading.AudioSegmentLeftOut | Downloading.AudioListNamesAudio |
