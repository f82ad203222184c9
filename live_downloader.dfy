/** `LiveDownloader`: turns the observer's segment batches into download
    tasks, runs them through a bounded queue with retries, and once the stream
    has ended and the queue has drained, reconciles what was downloaded into
    one output per run of consecutive segments. Downloads, the ffmpeg and
    ffprobe runs and the muxer's outcome are inputs; each asynchronous
    callback becomes one method call on the same object. */
module LiveDownloading {
  import opened Wrappers
  import opened JsText
  import opened AnalyseConcatMethod
  import opened ConcatDecision
  import opened Reconcile
  import opened VideoMuxing
  import EscapeFilename
  import Observer
  import YouTube

  // ---------------------------------------------------------------------------
  // custom headers
  // ---------------------------------------------------------------------------

  datatype HeaderError = HeadersInvalid

  function HeaderName(line: string): string {
    Split(line, ':')[0]
  }

  /** The parts after the first, joined again with ":". */
  function HeaderValue(line: string): string {
    Join(Split(line, ':')[1..], ':')
  }

  /** The header object after assigning every line in order. */
  function HeaderMap(lines: seq<string>): map<string, string>
    decreases |lines|
  {
    if lines == [] then map[]
    else
      var last := lines[|lines| - 1];
      HeaderMap(lines[..|lines| - 1])[HeaderName(last) := HeaderValue(last)]
  }

  /** The header-parsing loop of the constructor: each "\n"-separated line
      must hold a ":". */
  method ParseHeaders(text: string) returns (r: Result<map<string, string>, HeaderError>)
    ensures r.Err? <==> exists i :: 0 <= i < |Split(text, '\n')| && ':' !in Split(text, '\n')[i]
    ensures r.Ok? ==> r.value == HeaderMap(Split(text, '\n'))
  {
    var lines := Split(text, '\n');
    var headers: map<string, string> := map[];
    for i := 0 to |lines|
      invariant forall j :: 0 <= j < i ==> ':' in lines[j]
      invariant headers == HeaderMap(lines[..i])
    {
      var header := Split(lines[i], ':');
      if |header| < 2 {
        assert ':' !in lines[i];
        assert 0 <= i < |Split(text, '\n')| && ':' !in Split(text, '\n')[i];
        return Err(HeadersInvalid);
      }
      assert lines[..i + 1][..i] == lines[..i];
      headers := headers[header[0] := Join(header[1..], ':')];
    }
    assert lines[..|lines|] == lines;
    r := Ok(headers);
  }

  /** A header line is cut at its first ":" only; later ones stay in the
      value. */
  lemma HeaderLineCut(line: string)
    requires ':' in line
    ensures HeaderName(line) == line[..IndexOf(line, ':')]
    ensures HeaderValue(line) == line[IndexOf(line, ':') + 1..]
  {
    SplitFirst(line, ':');
  }

  /** Every named header is present, with the value of its last line. */
  lemma {:induction false} HeaderLastWins(lines: seq<string>, i: nat)
    requires i < |lines|
    requires forall j :: i < j < |lines| ==> HeaderName(lines[j]) != HeaderName(lines[i])
    ensures HeaderName(lines[i]) in HeaderMap(lines)
    ensures HeaderMap(lines)[HeaderName(lines[i])] == HeaderValue(lines[i])
    decreases |lines|
  {
    if i < |lines| - 1 {
      var init := lines[..|lines| - 1];
      assert forall j :: i < j < |init| ==> init[j] == lines[j];
      HeaderLastWins(init, i);
    }
  }

  /** No header appears that no line names. */
  lemma {:induction false} HeaderNamesFromLines(lines: seq<string>, k: string)
    requires k in HeaderMap(lines)
    ensures exists i :: 0 <= i < |lines| && HeaderName(lines[i]) == k
    decreases |lines|
  {
    var last := lines[|lines| - 1];
    if HeaderName(last) != k {
      HeaderNamesFromLines(lines[..|lines| - 1], k);
      var i :| 0 <= i < |lines| - 1 && HeaderName(lines[..|lines| - 1][i]) == k;
      assert lines[i] == lines[..|lines| - 1][i];
    }
  }

  // ---------------------------------------------------------------------------
  // tasks and their bookkeeping
  // ---------------------------------------------------------------------------

  /** The retry cap: a task is re-queued while its failure count is at most
      this, so it is attempted at most `MaxRetry + 1` times. */
  const MaxRetry: nat := 10
  const DefaultThreads: int := 10

  /** The download timeout of an attempt after `retry` failures. */
  function Timeout(retry: nat): (ms: nat)
    ensures 15000 <= ms <= 45000
  {
    var grown := 15000 + 15000 * retry;
    if grown < 45000 then grown else 45000
  }

  /** 15 seconds, then 30, then 45 for every later attempt. */
  lemma TimeoutSteps(retry: nat)
    ensures retry == 0 ==> Timeout(retry) == 15000
    ensures retry == 1 ==> Timeout(retry) == 30000
    ensures retry >= 2 ==> Timeout(retry) == 45000
    ensures Timeout(retry) <= Timeout(retry + 1)
  {
  }

  function DownloadDir(workDirectory: string, kind: TrackKind): string {
    workDirectory + (if kind == Video then "/video_download" else "/audio_download")
  }

  /** The tasks made from one batch of new segments: first attempt, the
      batch's kind, saved as `<work>/<kind>_download/<id>`. */
  function NewTasks(kind: TrackKind, chunks: seq<Observer.Chunk>, workDirectory: string): (ts: seq<Task>)
    ensures |ts| == |chunks|
    ensures forall i :: 0 <= i < |chunks| ==>
      ts[i] == Task(kind, chunks[i].url, chunks[i].id, 0,
                    DownloadDir(workDirectory, kind) + "/" + NatToString(chunks[i].id))
  {
    seq(|chunks|, i requires 0 <= i < |chunks| =>
      Task(kind, chunks[i].url, chunks[i].id, 0, DownloadDir(workDirectory, kind) + "/" + NatToString(chunks[i].id)))
  }

  /** How many tasks one `checkQueue` starts. */
  function DispatchCount(running: int, maxRunning: int, queued: nat): (n: nat)
    ensures n <= queued
    ensures running + n <= maxRunning || n == 0
  {
    if maxRunning <= running then 0
    else if maxRunning - running < queued then maxRunning - running
    else queued
  }

  /** The running count never exceeds the limit (none starts when the limit
      is not positive). */
  function RunCap(maxRunning: int): nat {
    if maxRunning > 0 then maxRunning else 0
  }

  /** `outputFiles` entries. The muxer's "success" event carries no value, so
      the recorded path is always undefined. */
  datatype OutputItem = OutputItem(description: string, path: Option<string>)

  /** How one output's chunks reach the muxer: joined byte-wise into one file
      per kind (the chunk files to join, in order), or through list files for
      ffmpeg's concat demuxer (their contents). */
  datatype Joining = Direct(videoInputs: seq<string>, audioInputs: seq<string>)
                   | ListFiles(videoList: string, audioList: string)

  datatype RunOutput = RunOutput(target: string, description: string, joining: Joining)

  datatype ExitOutcome =
    | NothingFinished                         // nothing downloaded: clean up and exit
    | CountMismatch                           // video and audio counts differ: exit, files kept
    | NoPairs(dropped: nat)                   // no video segment has its audio
    | Merged(runs: seq<seq<Task>>, decision: Decision, outputs: seq<RunOutput>, dropped: nat)

  function JoiningFor(useDirect: bool, workDirectory: string, run: seq<Task>): Joining {
    if useDirect then
      Direct(ChunkPaths(DownloadDir(workDirectory, Video), run), ChunkPaths(DownloadDir(workDirectory, Audio), run))
    else
      ListFiles(ListFile(DownloadDir(workDirectory, Video), ChunkNames(run)),
                ListFile(DownloadDir(workDirectory, Audio), ChunkNames(run)))
  }

  /** The entries recorded for the first `n` runs: one per run whose mux
      succeeded. */
  function Recorded(runs: seq<seq<Task>>, muxOk: nat -> bool, n: nat): seq<OutputItem>
    requires n <= |runs|
    requires forall i :: 0 <= i < |runs| ==> |runs[i]| > 0
  {
    if n == 0 then []
    else Recorded(runs, muxOk, n - 1)
         + (if muxOk(n - 1) then [OutputItem(Description(runs[n - 1]), None)] else [])
  }

  /** The decision `Decide` promises, as one predicate. */
  ghost predicate Decided(d: Decision, override: Option<bool>, ffprobeAvailable: bool, singleChunk: bool,
                          probe: ConcatMethod, isPremiumVideo: bool, isLowLatencyLiveStream: bool) {
    && (override.Some? ==> d == Decision(override.value, false, false))
    && (d.probed <==> override.None? && ffprobeAvailable && !singleChunk)
    && (d.guessing <==> override.None? && (!ffprobeAvailable || (!singleChunk && probe == Unknown)))
    && (d.guessing ==> (d.useDirect <==> !isPremiumVideo && isLowLatencyLiveStream))
    && (override.None? && !d.guessing ==> (d.useDirect <==> singleChunk || probe == DirectConcat))
  }

  /** The options the downloader takes; an absent format or header text is
      given as `""` and absent threads as 0. */
  datatype Options = Options(format: string, keep: bool, threads: int, concatMethod: RawOption,
                             forceMerge: bool, headers: string)

  /** How `start` ends: connected and listening, still waiting for the
      broadcast, or the TypeError of reading `title` from an undefined
      connect result. */
  datatype StartOutcome = Started | StillConnecting | TitleOfUndefined

  /** What `start` learns before the first segment: the work directory, the
      escaped title, whether ffprobe runs, and the stream's flags. */
  datatype Stream = Stream(workDirectory: string, outputFilename: string, ffprobeAvailable: bool,
                           isLowLatencyLiveStream: bool, isPremiumVideo: bool)

  class LiveDownloader {
    const maxRunningThreads: int
    const concatMethod: RawOption
    const forceMerge: bool
    const headers: map<string, string>
    const format: string
    var stream: Stream
    var keepTemporaryFiles: bool
    var unfinishedTasks: seq<Task>
    /** the tasks whose download is under way */
    var runningTasks: seq<Task>
    var finishedTasks: seq<Task>
    var droppedTasks: seq<Task>
    var outputFiles: seq<OutputItem>
    var nowRunningThreads: int
    var stopFlag: bool
    var finishFlag: bool
    /** how many tasks were ever queued */
    ghost var submitted: nat

    /** No task is lost or duplicated: every task ever queued sits in
        exactly one of the queue, the running set, the finished or the
        dropped list. */
    ghost predicate Conserved()
      reads this`unfinishedTasks, this`runningTasks, this`finishedTasks, this`droppedTasks, this`submitted
    {
      |unfinishedTasks| + |runningTasks| + |finishedTasks| + |droppedTasks| == submitted
    }

    /** A task still in play has failed at most `MaxRetry` times, a dropped
        one exactly once more. */
    ghost predicate RetriesBounded()
      reads this`unfinishedTasks, this`runningTasks, this`finishedTasks, this`droppedTasks
    {
      && (forall i :: 0 <= i < |unfinishedTasks| ==> unfinishedTasks[i].retry <= MaxRetry)
      && (forall i :: 0 <= i < |runningTasks| ==> runningTasks[i].retry <= MaxRetry)
      && (forall i :: 0 <= i < |finishedTasks| ==> finishedTasks[i].retry <= MaxRetry)
      && (forall i :: 0 <= i < |droppedTasks| ==> droppedTasks[i].retry == MaxRetry + 1)
    }

    /** The scheduler's invariant: the running count is the number of tasks
        under way and within the limit, tasks are conserved, retries are
        bounded, and the exit latch is only ever set after a stop. */
    ghost predicate Valid()
      reads this`nowRunningThreads, this`unfinishedTasks, this`runningTasks, this`finishedTasks
      reads this`droppedTasks, this`submitted, this`finishFlag, this`stopFlag
    {
      && nowRunningThreads == |runningTasks|
      && nowRunningThreads <= RunCap(maxRunningThreads)
      && Conserved()
      && RetriesBounded()
      && (finishFlag ==> stopFlag)
    }

    /** The constructor once the header text has been parsed. */
    constructor(options: Options, headers: map<string, string>)
      ensures Valid()
      ensures keepTemporaryFiles == options.keep
      ensures maxRunningThreads == (if options.threads != 0 then options.threads else DefaultThreads)
      ensures concatMethod == options.concatMethod && forceMerge == options.forceMerge
      ensures this.headers == headers && format == options.format
      ensures unfinishedTasks == [] && runningTasks == [] && finishedTasks == [] && droppedTasks == []
      ensures outputFiles == [] && nowRunningThreads == 0 && !stopFlag && !finishFlag
      ensures submitted == 0
    {
      keepTemporaryFiles := options.keep;
      maxRunningThreads := if options.threads != 0 then options.threads else DefaultThreads;
      concatMethod := options.concatMethod;
      forceMerge := options.forceMerge;
      this.headers := headers;
      format := options.format;
      stream := Stream("", "", false, false, false);
      unfinishedTasks := [];
      runningTasks := [];
      finishedTasks := [];
      droppedTasks := [];
      outputFiles := [];
      nowRunningThreads := 0;
      stopFlag := false;
      finishFlag := false;
      submitted := 0;
    }

    /** `new LiveDownloader(videoUrl, options)`: throws when a header line has
        no ":". */
    static method Create(options: Options) returns (r: Result<LiveDownloader, HeaderError>)
      ensures r.Err? <==> (options.headers != "" &&
        exists i :: 0 <= i < |Split(options.headers, '\n')| && ':' !in Split(options.headers, '\n')[i])
      ensures r.Ok? ==> fresh(r.value) && r.value.Valid()
      ensures r.Ok? ==> r.value.headers == (if options.headers == "" then map[] else HeaderMap(Split(options.headers, '\n')))
      ensures r.Ok? ==> r.value.maxRunningThreads == (if options.threads != 0 then options.threads else DefaultThreads)
      ensures r.Ok? ==> r.value.concatMethod == options.concatMethod
    {
      var headers: map<string, string> := map[];
      if options.headers != "" {
        var parsed := ParseHeaders(options.headers);
        if parsed.Err? {
          return Err(parsed.error);
        }
        headers := parsed.value;
      }
      var d := new LiveDownloader(options, headers);
      r := Ok(d);
    }

    /** `start` from the tool checks to the stream facts. Without ffprobe and
        without an override the temporary files are kept; this happens before
        connecting. `connect` resolves undefined once it gives up, and reading
        its `title` then throws; while no heartbeat is live it never returns. */
    method Start(ffprobeAvailable: bool, workDirectory: string, connected: Observer.ConnectOutcome)
      returns (outcome: StartOutcome)
      requires Valid()
      modifies this`stream, this`keepTemporaryFiles
      ensures Valid()
      ensures keepTemporaryFiles == (old(keepTemporaryFiles) || (!ffprobeAvailable && !Truthy(concatMethod)))
      ensures outcome == Started <==> connected.Connected?
      ensures outcome == TitleOfUndefined <==> connected.GaveUp?
      ensures outcome == StillConnecting <==> connected.StillWaiting?
      ensures connected.Connected? ==>
        stream == Stream(workDirectory, EscapeFilename.Escape(TemplateText(connected.info.title)), ffprobeAvailable,
                         connected.info.isLowLatencyLiveStream, connected.info.isPremiumVideo)
      ensures !connected.Connected? ==> stream == old(stream)
    {
      if !ffprobeAvailable && !Truthy(concatMethod) {
        keepTemporaryFiles := true;
      }
      match connected
      case StillWaiting =>
        return StillConnecting;
      case GaveUp =>
        return TitleOfUndefined;
      case Connected(info) =>
        stream := Stream(workDirectory, EscapeFilename.Escape(TemplateText(info.title)), ffprobeAvailable,
                         info.isLowLatencyLiveStream, info.isPremiumVideo);
        return Started;
    }

    /** `checkQueue` with its recursive calls unrolled: start the exit
        reconciliation when everything has drained after a stop (once), then
        start queued tasks from the head while below the limit. */
    method CheckQueue() returns (dispatched: seq<Task>, exitStarted: bool)
      requires Valid()
      modifies this`unfinishedTasks, this`runningTasks, this`nowRunningThreads, this`finishFlag
      ensures Valid()
      ensures exitStarted <==> old(nowRunningThreads) == 0 && old(unfinishedTasks) == [] && stopFlag && !old(finishFlag)
      ensures finishFlag == (old(finishFlag) || exitStarted)
      ensures var n := DispatchCount(old(nowRunningThreads), maxRunningThreads, |old(unfinishedTasks)|);
        && dispatched == old(unfinishedTasks)[..n]
        && unfinishedTasks == old(unfinishedTasks)[n..]
        && runningTasks == old(runningTasks) + dispatched
    {
      dispatched := [];
      exitStarted := false;
      ghost var queue := unfinishedTasks;
      ghost var n := DispatchCount(nowRunningThreads, maxRunningThreads, |queue|);
      while true
        invariant |dispatched| <= n
        invariant dispatched == queue[..|dispatched|] && unfinishedTasks == queue[|dispatched|..]
        invariant runningTasks == old(runningTasks) + dispatched
        invariant nowRunningThreads == old(nowRunningThreads) + |dispatched|
        invariant !exitStarted && finishFlag == old(finishFlag)
        invariant Valid()
        decreases |unfinishedTasks|
      {
        if nowRunningThreads == 0 && |unfinishedTasks| == 0 && stopFlag {
          if !finishFlag {
            finishFlag := true;
            exitStarted := true;
          }
        }
        if nowRunningThreads >= maxRunningThreads {
          return;
        }
        if |unfinishedTasks| == 0 {
          return;
        }
        var task := unfinishedTasks[0];
        Dispatch(task);
        dispatched := dispatched + [task];
        assert queue[..|dispatched|] == queue[..|dispatched| - 1] + [task];
        assert unfinishedTasks == queue[|dispatched|..];
      }
    }

    /** One dispatch step: the head of the queue starts running. */
    method Dispatch(task: Task)
      requires Valid() && |unfinishedTasks| > 0 && task == unfinishedTasks[0]
      requires nowRunningThreads < maxRunningThreads
      modifies this`unfinishedTasks, this`runningTasks, this`nowRunningThreads
      ensures Valid()
      ensures unfinishedTasks == old(unfinishedTasks)[1..] && runningTasks == old(runningTasks) + [task]
      ensures nowRunningThreads == old(nowRunningThreads) + 1
    {
      assert unfinishedTasks == [task] + unfinishedTasks[1..];
      nowRunningThreads := nowRunningThreads + 1;
      unfinishedTasks := unfinishedTasks[1..];
      runningTasks := runningTasks + [task];
    }

    /** The "new-video-chunks"/"new-audio-chunks" handlers: queue the batch at
        the tail, then run `checkQueue`. */
    method OnNewChunks(kind: TrackKind, chunks: seq<Observer.Chunk>) returns (dispatched: seq<Task>, exitStarted: bool)
      requires Valid()
      modifies this`unfinishedTasks, this`runningTasks, this`nowRunningThreads, this`finishFlag, this`submitted
      ensures Valid()
      ensures submitted == old(submitted) + |chunks|
      ensures var queue := old(unfinishedTasks) + NewTasks(kind, chunks, stream.workDirectory);
        var n := DispatchCount(old(nowRunningThreads), maxRunningThreads, |queue|);
        && dispatched == queue[..n] && unfinishedTasks == queue[n..]
        && runningTasks == old(runningTasks) + dispatched
      ensures exitStarted <==> old(nowRunningThreads) == 0 && old(unfinishedTasks) == [] && chunks == []
                               && stopFlag && !old(finishFlag)
      ensures finishFlag == (old(finishFlag) || exitStarted)
    {
      var queued := NewTasks(kind, chunks, stream.workDirectory);
      unfinishedTasks := unfinishedTasks + queued;
      submitted := submitted + |queued|;
      dispatched, exitStarted := CheckQueue();
    }

    /** A download settles: `k` picks which running task. Success records it
        as finished; failure counts the attempt and re-queues the task at the
        tail, or drops it once it has failed more than `MaxRetry` times. Then
        `checkQueue` runs. */
    method Complete(k: nat, ok: bool) returns (dispatched: seq<Task>, exitStarted: bool)
      requires Valid() && k < |runningTasks|
      modifies this`unfinishedTasks, this`runningTasks, this`nowRunningThreads, this`finishFlag
      modifies this`finishedTasks, this`droppedTasks
      ensures Valid()
      ensures var t := old(runningTasks)[k];
        var rest := old(runningTasks)[..k] + old(runningTasks)[k + 1..];
        var queue := old(unfinishedTasks) + Requeued(t, ok);
        var n := DispatchCount(|rest|, maxRunningThreads, |queue|);
        && dispatched == queue[..n] && unfinishedTasks == queue[n..]
        && runningTasks == rest + dispatched
        && finishedTasks == old(finishedTasks) + (if ok then [t] else [])
        && droppedTasks == old(droppedTasks) + Dropped(t, ok)
        && (exitStarted <==> rest == [] && queue == [] && stopFlag && !old(finishFlag))
      ensures finishFlag == (old(finishFlag) || exitStarted)
    {
      var task := runningTasks[k];
      Settle(k, ok);
      dispatched, exitStarted := CheckQueue();
    }

    /** The bookkeeping of one settled download, before `checkQueue`. */
    method Settle(k: nat, ok: bool)
      requires Valid() && k < |runningTasks|
      modifies this`unfinishedTasks, this`runningTasks, this`nowRunningThreads, this`finishedTasks, this`droppedTasks
      ensures Valid()
      ensures var t := old(runningTasks)[k];
        && runningTasks == old(runningTasks)[..k] + old(runningTasks)[k + 1..]
        && unfinishedTasks == old(unfinishedTasks) + Requeued(t, ok)
        && finishedTasks == old(finishedTasks) + (if ok then [t] else [])
        && droppedTasks == old(droppedTasks) + Dropped(t, ok)
    {
      var task := runningTasks[k];
      var before, after := runningTasks[..k], runningTasks[k + 1..];
      assert runningTasks == before + [task] + after;
      runningTasks := before + after;
      nowRunningThreads := nowRunningThreads - 1;
      if ok {
        finishedTasks := finishedTasks + [task];
      } else {
        var retried := task.(retry := task.retry + 1);
        if retried.retry <= MaxRetry {
          unfinishedTasks := unfinishedTasks + [retried];
        } else {
          droppedTasks := droppedTasks + [retried];
        }
      }
    }

    /** The "end" handler: the stream is over, so drain and then exit. */
    method OnEnd() returns (dispatched: seq<Task>, exitStarted: bool)
      requires Valid()
      modifies this`unfinishedTasks, this`runningTasks, this`nowRunningThreads, this`finishFlag, this`stopFlag
      ensures Valid() && stopFlag
      ensures exitStarted <==> old(nowRunningThreads) == 0 && old(unfinishedTasks) == [] && !old(finishFlag)
      ensures finishFlag == (old(finishFlag) || exitStarted)
      ensures var n := DispatchCount(old(nowRunningThreads), maxRunningThreads, |old(unfinishedTasks)|);
        && dispatched == old(unfinishedTasks)[..n] && unfinishedTasks == old(unfinishedTasks)[n..]
        && runningTasks == old(runningTasks) + dispatched
    {
      stopFlag := true;
      dispatched, exitStarted := CheckQueue();
    }

    /** Ctrl+C: the first press sets the stop flag and lets the running
        downloads finish; a second press ends the process at once. */
    method Interrupt() returns (forcedExit: bool, dispatched: seq<Task>, exitStarted: bool)
      requires Valid()
      modifies this`unfinishedTasks, this`runningTasks, this`nowRunningThreads, this`finishFlag, this`stopFlag
      ensures Valid() && stopFlag
      ensures forcedExit <==> old(stopFlag)
      ensures finishFlag == (old(finishFlag) || exitStarted)
      ensures forcedExit ==>
        && dispatched == [] && !exitStarted
        && unfinishedTasks == old(unfinishedTasks) && runningTasks == old(runningTasks)
        && nowRunningThreads == old(nowRunningThreads) && finishFlag == old(finishFlag)
      ensures !forcedExit ==>
        (exitStarted <==> old(nowRunningThreads) == 0 && old(unfinishedTasks) == [] && !old(finishFlag))
      ensures !forcedExit ==>
        var n := DispatchCount(old(nowRunningThreads), maxRunningThreads, |old(unfinishedTasks)|);
        && dispatched == old(unfinishedTasks)[..n] && unfinishedTasks == old(unfinishedTasks)[n..]
        && runningTasks == old(runningTasks) + dispatched
    {
      forcedExit := stopFlag;
      dispatched, exitStarted := [], false;
      if !stopFlag {
        stopFlag := true;
        dispatched, exitStarted := CheckQueue();
      }
    }

    /** `merge` and `mergeSequences`: one muxer run for an output, named
        after the title with `_<suffix>` when the suffix is truthy. Whether the
        target already exists and the clock are inputs; the result is the
        ffmpeg command line. */
    method Merge(videoPath: string, audioPath: string, suffix: Option<nat>, targetExists: bool, now: nat)
      returns (command: string)
      ensures var target := MergeTarget(stream.outputFilename, suffix);
        command == Command(MergeTracks(videoPath, audioPath), target,
                           Renamed(Name(Base(target)), targetExists, now) + Ext(Base(target)))
    {
      command := MuxPair(videoPath, audioPath, MergeTarget(stream.outputFilename, suffix), targetExists, now);
    }

    /** The reconciliation once everything has drained. `probe` is what
        ffprobe says about the first two chunks when it is asked, `muxOk(i)`
        whether muxing output `i` succeeds. Nothing finished: exit. Unequal
        video and audio counts: exit, keeping the files. Otherwise sort by
        segment number, keep the video segments with audio, split them into
        runs (one with `forceMerge`), decide how to join, and produce one
        output per run; a failed mux through list files keeps the temporary
        files. */
    method BeforeExit(probe: ConcatMethod, muxOk: nat -> bool) returns (outcome: ExitOutcome)
      modifies this`finishedTasks, this`keepTemporaryFiles, this`outputFiles
      ensures old(finishedTasks) != [] ==> finishedTasks == SortById(old(finishedTasks))
      ensures old(finishedTasks) == [] ==> finishedTasks == []
      ensures outcome.NothingFinished? <==> old(finishedTasks) == []
      ensures old(finishedTasks) != [] ==> GroupedFrom(GroupingOf(outcome), finishedTasks, forceMerge)
      ensures outcome.Merged? ==>
        Concluded(outcome, stream, StrictOverride(concatMethod), probe, muxOk,
                  old(outputFiles), outputFiles, old(keepTemporaryFiles), keepTemporaryFiles)
      ensures !outcome.Merged? ==> outputFiles == old(outputFiles) && keepTemporaryFiles == old(keepTemporaryFiles)
    {
      if finishedTasks == [] {
        return NothingFinished;
      }
      finishedTasks := SortById(finishedTasks);
      outcome := ReconcileSorted(finishedTasks, probe, muxOk);
    }

    /** `beforeExit` from the sorted finished tasks on. */
    method ReconcileSorted(sorted: seq<Task>, probe: ConcatMethod, muxOk: nat -> bool) returns (outcome: ExitOutcome)
      modifies this`keepTemporaryFiles, this`outputFiles
      ensures !outcome.NothingFinished?
      ensures GroupedFrom(GroupingOf(outcome), sorted, forceMerge)
      ensures outcome.Merged? ==>
        Concluded(outcome, stream, StrictOverride(concatMethod), probe, muxOk,
                  old(outputFiles), outputFiles, old(keepTemporaryFiles), keepTemporaryFiles)
      ensures !outcome.Merged? ==> outputFiles == old(outputFiles) && keepTemporaryFiles == old(keepTemporaryFiles)
    {
      var g := GroupFinished(sorted, forceMerge);
      if g.Mismatch? {
        outcome := CountMismatch;
      } else if g.Unpaired? {
        outcome := NoPairs(g.dropped);
      } else {
        outcome := Conclude(g.runs, g.dropped, probe, muxOk);
      }
      assert GroupingOf(outcome) == g;
    }

    /** The decision and the outputs of `beforeExit`, once the runs are
        known: the join method is decided (guessing keeps the temporary
        files) and each run becomes one output. */
    method Conclude(runs: seq<seq<Task>>, dropped: nat, probe: ConcatMethod, muxOk: nat -> bool)
      returns (outcome: ExitOutcome)
      requires forall i :: 0 <= i < |runs| ==> |runs[i]| > 0
      modifies this`keepTemporaryFiles, this`outputFiles
      ensures outcome.Merged? && outcome.runs == runs && outcome.dropped == dropped
      ensures Concluded(outcome, stream, StrictOverride(concatMethod), probe, muxOk,
                        old(outputFiles), outputFiles, old(keepTemporaryFiles), keepTemporaryFiles)
    {
      var d := Decide(StrictOverride(concatMethod), stream.ffprobeAvailable, |Flatten(runs)| == 1, probe,
                      stream.isPremiumVideo, stream.isLowLatencyLiveStream);
      if d.guessing {
        keepTemporaryFiles := true;
      }
      var outputs := EmitOutputs(runs, d, muxOk);
      outcome := Merged(runs, d, outputs, dropped);
    }

    /** The output loop of `beforeExit`. */
    method EmitOutputs(runs: seq<seq<Task>>, d: Decision, muxOk: nat -> bool) returns (outputs: seq<RunOutput>)
      requires forall i :: 0 <= i < |runs| ==> |runs[i]| > 0
      modifies this`keepTemporaryFiles, this`outputFiles
      ensures |outputs| == |runs|
      ensures forall i :: 0 <= i < |runs| ==> outputs[i] == OutputOf(stream, d.useDirect, runs, i)
      ensures outputFiles == old(outputFiles) + Recorded(runs, muxOk, |runs|)
      ensures keepTemporaryFiles == (old(keepTemporaryFiles) || (!d.useDirect && SomeMuxFailed(muxOk, |runs|)))
    {
      var s, useDirect := stream, d.useDirect;
      outputs := [];
      for i := 0 to |runs|
        invariant |outputs| == i
        invariant forall j :: 0 <= j < i ==> outputs[j] == OutputOf(s, useDirect, runs, j)
        invariant outputFiles == old(outputFiles) + Recorded(runs, muxOk, i)
        invariant keepTemporaryFiles == (old(keepTemporaryFiles) || (!useDirect && SomeMuxFailed(muxOk, i)))
      {
        outputs := outputs + [OutputOf(s, useDirect, runs, i)];
        ghost var before := outputFiles;
        RecordMux(runs, i, useDirect, muxOk);
        assert outputFiles == old(outputFiles) + Recorded(runs, muxOk, i + 1) by {
          assert outputFiles == before + (if muxOk(i) then [OutputItem(Description(runs[i]), None)] else []);
        }
      }
    }

    /** The bookkeeping after muxing output `i`: a success is recorded, a
        failure through list files keeps the temporary files. */
    method RecordMux(runs: seq<seq<Task>>, i: nat, useDirect: bool, muxOk: nat -> bool)
      requires i < |runs| && forall j :: 0 <= j < |runs| ==> |runs[j]| > 0
      modifies this`keepTemporaryFiles, this`outputFiles
      ensures outputFiles == old(outputFiles) + (if muxOk(i) then [OutputItem(Description(runs[i]), None)] else [])
      ensures keepTemporaryFiles == (old(keepTemporaryFiles) || (!useDirect && !muxOk(i)))
    {
      if muxOk(i) {
        outputFiles := outputFiles + [OutputItem(Description(runs[i]), None)];
      } else if !useDirect {
        keepTemporaryFiles := true;
      }
    }
  }

  /** Output `i` of the runs: its target (suffixed when there are several
      runs), its description and how its chunks are joined. */
  function OutputOf(s: Stream, useDirect: bool, runs: seq<seq<Task>>, i: nat): RunOutput
    requires i < |runs| && |runs[i]| > 0
  {
    RunOutput(OutputTarget(s.outputFilename, |runs| > 1, i), Description(runs[i]),
              JoiningFor(useDirect, s.workDirectory, runs[i]))
  }

  /** Whether one of the first `n` muxes fails. */
  function SomeMuxFailed(muxOk: nat -> bool, n: nat): bool {
    n > 0 && (!muxOk(n - 1) || SomeMuxFailed(muxOk, n - 1))
  }

  /** `SomeMuxFailed` is the existential it names. */
  lemma {:induction false} SomeMuxFailedIff(muxOk: nat -> bool, n: nat)
    ensures SomeMuxFailed(muxOk, n) <==> exists i :: 0 <= i < n && !muxOk(i)
  {
    if n > 0 {
      SomeMuxFailedIff(muxOk, n - 1);
    }
  }

  /** What `beforeExit` promises of a merged outcome: the join method was
      decided as `Decide` promises, one output per run, one record per
      successful mux, and the temporary files kept when the method was a
      guess or a mux through list files failed. */
  ghost predicate Concluded(outcome: ExitOutcome, s: Stream, override: Option<bool>, probe: ConcatMethod,
                            muxOk: nat -> bool, oldFiles: seq<OutputItem>, files: seq<OutputItem>,
                            oldKeep: bool, keep: bool) {
    && outcome.Merged?
    && (forall i :: 0 <= i < |outcome.runs| ==> |outcome.runs[i]| > 0)
    && Decided(outcome.decision, override, s.ffprobeAvailable, |Flatten(outcome.runs)| == 1, probe,
               s.isPremiumVideo, s.isLowLatencyLiveStream)
    && |outcome.outputs| == |outcome.runs|
    && (forall i :: 0 <= i < |outcome.runs| ==>
          outcome.outputs[i] == OutputOf(s, outcome.decision.useDirect, outcome.runs, i))
    && files == oldFiles + Recorded(outcome.runs, muxOk, |outcome.runs|)
    && keep == (oldKeep || outcome.decision.guessing ||
                (!outcome.decision.useDirect && SomeMuxFailed(muxOk, |outcome.runs|)))
  }

  /** The runs `beforeExit` builds from the kept video tasks. */
  method GroupRuns(kept: seq<Task>, forceMerge: bool) returns (runs: seq<seq<Task>>)
    requires kept != []
    ensures Flatten(runs) == kept
    ensures forall i :: 0 <= i < |runs| ==> |runs[i]| > 0
    ensures forceMerge ==> |runs| == 1
    ensures !forceMerge ==> IsRunSplit(runs, kept)
  {
    var split := SplitRuns(kept);
    RunsAreSplit(kept, |kept|);
    assert kept[..|kept|] == kept;
    runs := ForceMerge(split, forceMerge);
    if |split| > 1 && forceMerge {
      assert Flatten(runs) == Flatten([]) + runs[0];
    }
  }

  /** How the sorted finished tasks group: unequal video and audio counts,
      no video segment with its audio, or the runs of kept video segments. */
  datatype Grouping = Mismatch | Unpaired(dropped: nat) | Grouped(runs: seq<seq<Task>>, dropped: nat)

  /** The grouping `beforeExit` reached. */
  function GroupingOf(outcome: ExitOutcome): Grouping {
    match outcome
    case NothingFinished => Mismatch
    case CountMismatch => Mismatch
    case NoPairs(dropped) => Unpaired(dropped)
    case Merged(runs, _, _, dropped) => Grouped(runs, dropped)
  }

  /** What the grouping step promises: unequal counts are a mismatch, an
      empty kept list is reported with the count dropped, and otherwise the
      runs cover the kept video tasks in order, one run under `forceMerge`
      and maximal runs of consecutive numbers without it. */
  ghost predicate GroupedFrom(g: Grouping, sorted: seq<Task>, forceMerge: bool) {
    var video := OfKind(sorted, Video);
    var audio := OfKind(sorted, Audio);
    var kept := KeepPaired(video, audio);
    && (g.Mismatch? <==> |video| != |audio|)
    && (g.Unpaired? <==> |video| == |audio| && kept == [])
    && (!g.Mismatch? ==> g.dropped == DroppedCount(video, audio))
    && (g.Grouped? ==>
          && Flatten(g.runs) == kept
          && (forall i :: 0 <= i < |g.runs| ==> |g.runs[i]| > 0)
          && (forceMerge ==> |g.runs| == 1)
          && (!forceMerge ==> IsRunSplit(g.runs, kept)))
  }

  /** The filtering and run building of `beforeExit`, on the sorted tasks. */
  method GroupFinished(sorted: seq<Task>, forceMerge: bool) returns (g: Grouping)
    ensures GroupedFrom(g, sorted, forceMerge)
  {
    var video := OfKind(sorted, Video);
    var audio := OfKind(sorted, Audio);
    if |video| != |audio| {
      return Mismatch;
    }
    var kept := KeepPaired(video, audio);
    var dropped := DroppedCount(video, audio);
    if kept == [] {
      return Unpaired(dropped);
    }
    var runs := GroupRuns(kept, forceMerge);
    g := Grouped(runs, dropped);
  }


  /** A value interpolated into a template literal: an absent title reads
      "undefined". */
  function TemplateText(o: Option<string>): string {
    if o.Some? then o.value else "undefined"
  }

  /** The task a failed or finished attempt puts back in the queue. */
  function Requeued(t: Task, ok: bool): (q: seq<Task>)
    ensures q != [] <==> !ok && t.retry < MaxRetry
  {
    if !ok && t.retry + 1 <= MaxRetry then [t.(retry := t.retry + 1)] else []
  }

  /** The task a failed attempt gives up on. */
  function Dropped(t: Task, ok: bool): (q: seq<Task>)
    ensures q != [] <==> !ok && t.retry >= MaxRetry
  {
    if !ok && t.retry + 1 > MaxRetry then [t.(retry := t.retry + 1)] else []
  }

  /** Every failed attempt either re-queues or drops the task, never both,
      and the task keeps its identity. */
  lemma SettleOnce(t: Task, ok: bool)
    ensures |Requeued(t, ok)| + |Dropped(t, ok)| + (if ok then 1 else 0) == 1
    ensures forall x :: x in Requeued(t, ok) + Dropped(t, ok) ==>
      x.kind == t.kind && x.id == t.id && x.url == t.url && x.retry == t.retry + 1
  {
  }

  /** One video and one audio input, in that order. */
  function MergeTracks(videoPath: string, audioPath: string): (ts: seq<MuxTrack>)
    ensures |ts| == 2 && ts[0] == MuxTrack(Video, videoPath) && ts[1] == MuxTrack(Audio, audioPath)
  {
    [MuxTrack(Video, videoPath)] + [MuxTrack(Audio, audioPath)]
  }

  /** One muxer run over a video file and an audio file into `target`. */
  method MuxPair(videoPath: string, audioPath: string, target: string, targetExists: bool, now: nat)
    returns (command: string)
    requires target != ""
    ensures command == Command(MergeTracks(videoPath, audioPath), target,
                               Renamed(Name(Base(target)), targetExists, now) + Ext(Base(target)))
  {
    var muxer := new VideoMuxer(target);
    muxer.AddVideoTracks([MuxTrack(Video, videoPath)]);
    muxer.AddAudioTracks([MuxTrack(Audio, audioPath)]);
    assert muxer.videoTracks + muxer.audioTracks == MergeTracks(videoPath, audioPath);
    command := muxer.Run(targetExists, now);
    assert muxer.outputPathName == Renamed(Name(Base(target)), targetExists, now);
  }

  /** The muxer's file name, with `_<now>` appended when the target exists. */
  function Renamed(name: string, targetExists: bool, now: nat): string {
    if targetExists then name + "_" + NatToString(now) else name
  }

  /** The output name `merge` gives the muxer. */
  function MergeTarget(title: string, suffix: Option<nat>): string {
    title + (if suffix.Some? && suffix.value != 0 then "_" + NatToString(suffix.value) else "") + ".mp4"
  }

  /** The suffix `beforeExit` passes, `i + 1` or undefined, names the same
      file as `OutputTarget`, and the muxer sees an ".mp4" file named after
      the escaped title. */
  lemma MergeTargetOfRun(title: string, useSuffix: bool, i: nat)
    requires EscapeFilename.IsClean(title) && (title != "" || useSuffix)
    ensures var target := MergeTarget(title, if useSuffix then Some(i + 1) else None);
      && target == OutputTarget(title, useSuffix, i)
      && Ext(Base(target)) == ".mp4"
      && Name(Base(target)) == title + (if useSuffix then "_" + NatToString(i + 1) else "")
  {
    assert '/' !in title by {
      assert EscapeFilename.IsClean(title);
      assert forall k :: 0 <= k < |title| ==> title[k] != '/';
    }
    TargetIsMp4(title, useSuffix, i);
  }
}
