/** `Downloader`: the downloader for a stream that has already ended. It fetches
    every segment at once and then joins them the way the live downloader
    does: the user's override, else ffprobe on the first two segments, else a
    guess from the stream's flags. The tool checks, the video information, the
    downloads (as the directory listings they leave) and the probe's verdict
    are inputs. */
module Downloading {
  import opened Wrappers
  import opened JsText
  import opened AnalyseConcatMethod
  import opened ConcatDecision
  import opened VideoMuxing
  import EscapeFilename
  import YouTube
  import LiveDownloading

  datatype DownloadError =
    | NoLiveAddress     // the video information carries no MPD URL
    | NoChunkToProbe    // the probe is pointed at the first listed segment, and there is none

  /** How the segments reach the muxer: joined byte-wise into one file per
      kind (the files to join, in order, and the joined file), or through list
      files for ffmpeg's concat demuxer (their contents). */
  datatype Joining =
    | Direct(videoInputs: seq<string>, audioInputs: seq<string>, videoTrack: string, audioTrack: string)
    | ListFiles(videoList: string, audioList: string)

  datatype DownloadOutcome =
    | Failed(error: DownloadError)
    | LeftUnmerged(workDirectory: string)   // no ffmpeg: the segments stay in the work directory
    | Muxing(decision: Decision, joining: Joining)

  /** `<dir>/<name>` for every name. */
  function Paths(dir: string, names: seq<string>): (ps: seq<string>)
    ensures |ps| == |names|
    ensures forall i :: 0 <= i < |names| ==> ps[i] == dir + "/" + names[i]
  {
    seq(|names|, i requires 0 <= i < |names| => dir + "/" + names[i])
  }

  /** The file the muxer writes: the title in a template with ".mp4", escaped. */
  function OutputFilename(title: Option<string>): string {
    EscapeFilename.Escape(LiveDownloading.TemplateText(title) + ".mp4")
  }

  /** The output file is named after the escaped title and keeps the ".mp4"
      extension, which has nothing to delete. */
  lemma OutputFilenameShape(title: Option<string>)
    ensures OutputFilename(title) == EscapeFilename.Escape(LiveDownloading.TemplateText(title)) + ".mp4"
    ensures EscapeFilename.IsClean(OutputFilename(title))
    ensures EndsWith(OutputFilename(title), ".mp4")
  {
    var t := LiveDownloading.TemplateText(title);
    EscapeFilename.EscapeConcat(t, ".mp4");
    EscapeFilename.EscapeClean(".mp4");
  }

  /** The audio list file as written: built from the video listing. */
  function AudioListAsWritten(workDirectory: string, videoFiles: seq<string>, audioFiles: seq<string>): string {
    ListFile(LiveDownloading.DownloadDir(workDirectory, Audio), videoFiles)
  }

  /** Read back, the audio list as written names the video listing's entries
      under the audio directory, whatever the audio listing holds. */
  lemma AudioListFromVideoNames(workDirectory: string, videoFiles: seq<string>, audioFiles: seq<string>)
    requires '\n' !in workDirectory
    requires forall i :: 0 <= i < |videoFiles| ==> '\n' !in videoFiles[i]
    requires |videoFiles| >= 1
    ensures var audioDir := LiveDownloading.DownloadDir(workDirectory, Audio);
      var lines := Split(AudioListAsWritten(workDirectory, videoFiles, audioFiles), '\n');
      && |lines| == |videoFiles|
      && forall i :: 0 <= i < |videoFiles| ==> NameOfLine(audioDir, lines[i]) == Some(videoFiles[i])
  {
    var audioDir := LiveDownloading.DownloadDir(workDirectory, Audio);
    assert '\n' !in audioDir by {
      assert audioDir == workDirectory + "/audio_download";
    }
    ListFileRoundTrip(audioDir, videoFiles);
  }

  /** One video segment and two audio segments: the audio list as written
      holds a single line, naming the first, so the second audio segment never
      reaches the muxer. */
  lemma AudioSegmentLeftOut()
    ensures var lines := Split(AudioListAsWritten("w", ["0"], ["0", "1"]), '\n');
      && |lines| == 1
      && NameOfLine(LiveDownloading.DownloadDir("w", Audio), lines[0]) == Some("0")
  {
    AudioListFromVideoNames("w", ["0"], ["0", "1"]);
  }

  /** The audio list file built from the audio listing. */
  function AudioListFor(workDirectory: string, audioFiles: seq<string>): string {
    ListFile(LiveDownloading.DownloadDir(workDirectory, Audio), audioFiles)
  }

  /** Read back, it names exactly the downloaded audio segments, in order. */
  lemma AudioListNamesAudio(workDirectory: string, audioFiles: seq<string>)
    requires '\n' !in workDirectory
    requires forall i :: 0 <= i < |audioFiles| ==> '\n' !in audioFiles[i]
    requires |audioFiles| >= 1
    ensures var audioDir := LiveDownloading.DownloadDir(workDirectory, Audio);
      var lines := Split(AudioListFor(workDirectory, audioFiles), '\n');
      && |lines| == |audioFiles|
      && forall i :: 0 <= i < |audioFiles| ==> NameOfLine(audioDir, lines[i]) == Some(audioFiles[i])
  {
    var audioDir := LiveDownloading.DownloadDir(workDirectory, Audio);
    assert '\n' !in audioDir by {
      assert audioDir == workDirectory + "/audio_download";
    }
    ListFileRoundTrip(audioDir, audioFiles);
  }

  /** What the muxer is given for the listed segments: the chunk files to
      join byte-wise and the joined files, or the two list files, the audio
      one built from the audio listing. */
  function JoiningFor(useDirect: bool, workDirectory: string, videoFiles: seq<string>, audioFiles: seq<string>): Joining {
    var videoDir := LiveDownloading.DownloadDir(workDirectory, Video);
    var audioDir := LiveDownloading.DownloadDir(workDirectory, Audio);
    if useDirect then
      Direct(Paths(videoDir, videoFiles), Paths(audioDir, audioFiles), videoDir + "/video.mp4", audioDir + "/audio.mp4")
    else
      ListFiles(ListFile(videoDir, videoFiles), AudioListFor(workDirectory, audioFiles))
  }

  class Downloader {
    const videoUrl: string
    const format: string
    const maxThreads: int
    /** `+concatMethod`, as the override it gives when checked for truthiness. */
    const concatMethod: Option<bool>
    const enableCustomHeaders: bool
    const rawHeaders: string
    var keepTemporaryFiles: bool
    var outputFilename: string

    /** Options that are falsy leave the defaults in place; an absent format
        or header text is given as `""` and absent threads as 0. */
    constructor(videoUrl: string, format: string, keep: bool, threads: int, concatMethod: RawOption, headers: string)
      ensures this.videoUrl == videoUrl && this.format == format
      ensures keepTemporaryFiles == keep
      ensures maxThreads == (if threads != 0 then threads else LiveDownloading.DefaultThreads)
      ensures this.concatMethod == CoercedOverride(concatMethod)
      ensures enableCustomHeaders == (headers != "") && rawHeaders == headers
      ensures outputFilename == ""
    {
      this.videoUrl := videoUrl;
      this.format := format;
      keepTemporaryFiles := keep;
      maxThreads := if threads != 0 then threads else LiveDownloading.DefaultThreads;
      this.concatMethod := CoercedOverride(concatMethod);
      enableCustomHeaders := headers != "";
      rawHeaders := headers;
      outputFilename := "";
    }

    /** `download` after the tool checks and the video information, and once
        the segments are on disk: the missing-address error, the exit without
        ffmpeg, the concat decision and what the muxer is then given. Without
        ffprobe, or when the method is guessed, the temporary files are kept. */
    method Download(ffmpegAvailable: bool, ffprobeAvailable: bool, info: YouTube.VideoInfo, workDirectory: string,
                    videoFiles: seq<string>, audioFiles: seq<string>, probe: ConcatMethod)
      returns (outcome: DownloadOutcome)
      modifies this`keepTemporaryFiles, this`outputFilename
      ensures outcome == Failed(NoLiveAddress) <==> YouTube.TruthyText(info.mpdUrl).None?
      ensures outputFilename == if YouTube.TruthyText(info.mpdUrl).None? then old(outputFilename) else OutputFilename(info.title)
      ensures outcome.LeftUnmerged? <==> YouTube.TruthyText(info.mpdUrl).Some? && !ffmpegAvailable
      ensures outcome.LeftUnmerged? ==> outcome == LeftUnmerged(workDirectory)
      ensures outcome.Muxing? <==>
        YouTube.TruthyText(info.mpdUrl).Some? && ffmpegAvailable && !(concatMethod.None? && ffprobeAvailable && videoFiles == [])
      ensures outcome == Failed(NoChunkToProbe) <==>
        YouTube.TruthyText(info.mpdUrl).Some? && ffmpegAvailable && concatMethod.None? && ffprobeAvailable && videoFiles == []
      ensures outcome.Muxing? ==>
        && LiveDownloading.Decided(outcome.decision, concatMethod, ffprobeAvailable, |videoFiles| == 1, probe,
                                   info.isPremiumVideo, info.isLowLatencyLiveStream)
        && outcome.joining == JoiningFor(outcome.decision.useDirect, workDirectory, videoFiles, audioFiles)
      ensures keepTemporaryFiles == (old(keepTemporaryFiles) || !ffprobeAvailable || (outcome.Muxing? && outcome.decision.guessing))
    {
      if !ffprobeAvailable {
        keepTemporaryFiles := true;
      }
      if YouTube.TruthyText(info.mpdUrl).None? {
        return Failed(NoLiveAddress);
      }
      outputFilename := OutputFilename(info.title);
      if !ffmpegAvailable {
        return LeftUnmerged(workDirectory);
      }
      if concatMethod.None? && ffprobeAvailable && |videoFiles| == 0 {
        // resolving the path of an absent first entry throws before ffprobe runs
        return Failed(NoChunkToProbe);
      }
      var d := Decide(concatMethod, ffprobeAvailable, |videoFiles| == 1, probe,
                      info.isPremiumVideo, info.isLowLatencyLiveStream);
      if d.guessing {
        keepTemporaryFiles := true;
      }
      outcome := Muxing(d, JoiningFor(d.useDirect, workDirectory, videoFiles, audioFiles));
    }
  }
}
