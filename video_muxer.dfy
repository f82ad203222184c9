/** `VideoMuxer`: collects video and audio inputs and builds the ffmpeg command
    line that muxes them into one file. Running the command is left to the
    caller; whether the target already exists and the current time are inputs
    of `Run`. */
module VideoMuxing {
  import opened Wrappers
  import opened JsText

  // ---------------------------------------------------------------------------
  // `path.parse` (POSIX): the last path component and its extension
  // ---------------------------------------------------------------------------

  /** The last index of `c` in `s`, if any. */
  function LastIndexOf(s: string, c: char): (r: Option<nat>)
    ensures r.Some? ==> r.value < |s| && s[r.value] == c && c !in s[r.value + 1..]
    ensures r.None? <==> c !in s
  {
    if s == [] then None
    else if s[|s| - 1] == c then Some(|s| - 1)
    else
      assert s == s[..|s| - 1] + [s[|s| - 1]];
      LastIndexOf(s[..|s| - 1], c)
  }

  function TrimTrailingSlashes(p: string): (t: string)
    ensures |t| <= |p| && t == p[..|t|]
    ensures t == [] || t[|t| - 1] != '/'
  {
    if |p| > 0 && p[|p| - 1] == '/' then TrimTrailingSlashes(p[..|p| - 1]) else p
  }

  /** `path.parse(p).base`: the text after the last slash, trailing slashes
      ignored. */
  function Base(p: string): (b: string)
    ensures '/' !in b
  {
    var t := TrimTrailingSlashes(p);
    var k := LastIndexOf(t, '/');
    if k.Some? then t[k.value + 1..] else t
  }

  /** Where the extension of a base name starts: its last dot, unless there is
      none, the dot begins the name, or the name is "..". */
  function ExtStart(base: string): (r: Option<nat>)
    ensures r.Some? ==> 0 < r.value < |base| && base[r.value] == '.' && '.' !in base[r.value + 1..]
    ensures r.None? <==> '.' !in base || (base[0] == '.' && '.' !in base[1..]) || base == ".."
  {
    var d := LastIndexOf(base, '.');
    if d.None? || d.value == 0 || base == ".." then None
    else
      assert base[0] == '.' ==> '.' in base[1..] by {
        if base[0] == '.' { assert base[d.value] == base[1..][d.value - 1]; }
      }
      d
  }

  function Ext(base: string): string {
    var d := ExtStart(base);
    if d.Some? then base[d.value..] else ""
  }

  function Name(base: string): string {
    var d := ExtStart(base);
    if d.Some? then base[..d.value] else base
  }

  /** The name followed by the extension is the base again; the extension is
      empty or one dot followed by dot-free text. */
  lemma NameExt(base: string)
    ensures Name(base) + Ext(base) == base
    ensures Ext(base) == "" || (Ext(base)[0] == '.' && '.' !in Ext(base)[1..])
  {
    var d := ExtStart(base);
    if d.Some? {
      assert base[d.value..][1..] == base[d.value + 1..];
    }
  }

  /** A base that ends in ".mp4" and has something before it has the extension
      ".mp4". */
  lemma Mp4Ext(base: string)
    requires |base| > 4 && EndsWith(base, ".mp4")
    ensures Ext(base) == ".mp4"
    ensures Name(base) == base[..|base| - 4]
  {
    var d := LastIndexOf(base, '.');
    assert base[|base| - 4] == '.';
    assert d == Some(|base| - 4) by {
      assert base[|base| - 3..] == "mp4";
    }
  }

  // ---------------------------------------------------------------------------
  // the command line
  // ---------------------------------------------------------------------------

  datatype TrackKind = Video | Audio

  /** A `VideoTrack` or `AudioTrack`: its `type` and its file path. */
  datatype MuxTrack = MuxTrack(kind: TrackKind, path: string)

  function InputArg(t: MuxTrack): string {
    "-i \"" + t.path + "\" "
  }

  /** One `-i "<path>" ` per track, in order. */
  function InputArgs(ts: seq<MuxTrack>): string {
    if ts == [] then "" else InputArg(ts[0]) + InputArgs(ts[1..])
  }

  /** `-map <i>:v ` for a video track, `-map <i>:a ` for an audio track. */
  function MapArg(i: nat, t: MuxTrack): string {
    "-map " + NatToString(i) + (if t.kind == Video then ":v " else ":a ")
  }

  /** The map clauses of `ts`, numbered from `start`. */
  function MapArgs(ts: seq<MuxTrack>, start: nat): string
    decreases |ts|
  {
    if ts == [] then "" else MapArg(start, ts[0]) + MapArgs(ts[1..], start + 1)
  }

  /** The output clause chosen by the extension of the full output path. */
  function OutputClause(outputPath: string, target: string): string {
    if EndsWith(outputPath, ".mkv") then "-c copy -reserve_index_space 200k \"" + target + "\""
    else if EndsWith(outputPath, ".mp4") then "-c copy -movflags faststart \"" + target + "\""
    else ""
  }

  function Command(all: seq<MuxTrack>, outputPath: string, target: string): string {
    "ffmpeg " + InputArgs(all) + MapArgs(all, 0) + OutputClause(outputPath, target)
  }

  lemma {:induction false} InputArgsConcat(a: seq<MuxTrack>, b: seq<MuxTrack>)
    ensures InputArgs(a + b) == InputArgs(a) + InputArgs(b)
    decreases |a|
  {
    if a == [] {
      assert a + b == b;
    } else {
      assert (a + b)[1..] == a[1..] + b;
      InputArgsConcat(a[1..], b);
    }
  }

  lemma {:induction false} MapArgsConcat(a: seq<MuxTrack>, b: seq<MuxTrack>, start: nat)
    ensures MapArgs(a + b, start) == MapArgs(a, start) + MapArgs(b, start + |a|)
    decreases |a|
  {
    if a == [] {
      assert a + b == b;
    } else {
      assert (a + b)[1..] == a[1..] + b;
      MapArgsConcat(a[1..], b, start + 1);
    }
  }

  /** The `k`-th input clause names track `k`'s file ... */
  lemma InputsLineUp(all: seq<MuxTrack>, k: nat)
    requires k < |all|
    ensures InputArgs(all) == InputArgs(all[..k]) + InputArg(all[k]) + InputArgs(all[k + 1..])
  {
    var rest := all[k..];
    assert all == all[..k] + rest;
    InputArgsConcat(all[..k], rest);
    assert rest[0] == all[k] && rest[1..] == all[k + 1..];
  }

  /** ... and the `k`-th map clause maps input `k` with track `k`'s kind: the
      two lists line up. */
  lemma MapsLineUp(all: seq<MuxTrack>, k: nat)
    requires k < |all|
    ensures MapArgs(all, 0) == MapArgs(all[..k], 0) + MapArgs(all[k..], k)
    ensures MapArgs(all[k..], k) == MapArg(k, all[k]) + MapArgs(all[k + 1..], k + 1)
  {
    var rest := all[k..];
    assert all == all[..k] + rest;
    MapArgsConcat(all[..k], rest, 0);
    assert rest[0] == all[k] && rest[1..] == all[k + 1..];
  }

  /** The map number printed for track `k` reads back as `k`. */
  lemma MapArgNumber(k: nat, t: MuxTrack)
    ensures var m := MapArg(k, t);
            var digits := NatToString(k);
            m == "-map " + digits + (if t.kind == Video then ":v " else ":a ")
            && ParseInt(digits) == Num(k)
  {
    ParseIntOfNatToString(k);
  }

  datatype MuxerError = NoOutputPath

  class VideoMuxer {
    var outputPathName: string
    const outputPathExt: string
    const outputPath: string
    var videoTracks: seq<MuxTrack>
    var audioTracks: seq<MuxTrack>

    /** The constructor for a non-empty path; `Create` models the throw for an
        empty one. */
    constructor(outputPath: string)
      requires outputPath != ""
      ensures this.outputPath == outputPath
      ensures outputPathName == Name(Base(outputPath)) && outputPathExt == Ext(Base(outputPath))
      ensures videoTracks == [] && audioTracks == []
    {
      this.outputPath := outputPath;
      outputPathName := Name(Base(outputPath));
      outputPathExt := Ext(Base(outputPath));
      videoTracks := [];
      audioTracks := [];
    }

    /** `new VideoMuxer(outputPath)`, which throws when the path is missing or
        empty. */
    static method Create(outputPath: string) returns (r: Result<VideoMuxer, MuxerError>)
      ensures r.Err? <==> outputPath == ""
      ensures r.Ok? ==> fresh(r.value)
      ensures r.Ok? ==> r.value.outputPath == outputPath && r.value.videoTracks == [] && r.value.audioTracks == []
      ensures r.Ok? ==> r.value.outputPathName + r.value.outputPathExt == Base(outputPath)
    {
      if outputPath == "" {
        return Err(NoOutputPath);
      }
      var m := new VideoMuxer(outputPath);
      NameExt(Base(outputPath));
      r := Ok(m);
    }

    /** Appends; earlier tracks and their order are kept. */
    method AddVideoTracks(tracks: seq<MuxTrack>)
      modifies this`videoTracks
      ensures videoTracks == old(videoTracks) + tracks
    {
      videoTracks := videoTracks + tracks;
    }

    method AddAudioTracks(tracks: seq<MuxTrack>)
      modifies this`audioTracks
      ensures audioTracks == old(audioTracks) + tracks
    {
      audioTracks := audioTracks + tracks;
    }

    /** Builds the command: every video track then every audio track as an
        input, each mapped by its position; when `targetExists` the name gets
        `_<now>` appended before the extension. */
    method Run(targetExists: bool, now: nat) returns (command: string)
      modifies this`outputPathName
      ensures outputPathName == (if targetExists then old(outputPathName) + "_" + NatToString(now)
                                 else old(outputPathName))
      ensures command == Command(videoTracks + audioTracks, outputPath, outputPathName + outputPathExt)
    {
      var all := videoTracks + audioTracks;
      command := "ffmpeg ";
      command := AppendInputs(command, all);
      command := AppendMaps(command, all);
      ghost var prefix := command;
      assert prefix == "ffmpeg " + InputArgs(all) + MapArgs(all, 0);
      if targetExists {
        outputPathName := outputPathName + "_" + NatToString(now);
      }
      var target := outputPathName + outputPathExt;
      var clause := "";
      if EndsWith(outputPath, ".mkv") {
        clause := "-c copy -reserve_index_space 200k \"" + target + "\"";
      } else if EndsWith(outputPath, ".mp4") {
        clause := "-c copy -movflags faststart \"" + target + "\"";
      }
      assert clause == OutputClause(outputPath, target);
      command := command + clause;
    }
  }

  lemma InputArgsSnoc(a: seq<MuxTrack>, t: MuxTrack)
    ensures InputArgs(a + [t]) == InputArgs(a) + InputArg(t)
  {
    InputArgsConcat(a, [t]);
    assert [t][1..] == [];
  }

  lemma MapArgsStep(all: seq<MuxTrack>, i: nat)
    requires i < |all|
    ensures MapArgs(all[..i + 1], 0) == MapArgs(all[..i], 0) + MapArg(i, all[i])
  {
    MapArgsSnoc(all[..i], all[i], 0);
    assert all[..i + 1] == all[..i] + [all[i]];
  }

  lemma MapArgsSnoc(a: seq<MuxTrack>, t: MuxTrack, start: nat)
    ensures MapArgs(a + [t], start) == MapArgs(a, start) + MapArg(start + |a|, t)
  {
    MapArgsConcat(a, [t], start);
    assert [t][1..] == [];
  }

  /** The input loop of `run`. */
  method AppendInputs(command: string, all: seq<MuxTrack>) returns (c: string)
    ensures c == command + InputArgs(all)
  {
    c := command;
    for i := 0 to |all|
      invariant c == command + InputArgs(all[..i])
    {
      ghost var before := c;
      c := c + "-i \"" + all[i].path + "\" ";
      assert c == before + InputArg(all[i]);
      InputArgsSnoc(all[..i], all[i]);
      assert all[..i + 1] == all[..i] + [all[i]];
    }
    assert all[..|all|] == all;
  }

  /** The map loop of `run`: track `i` of the combined list is input `i`. */
  method AppendMaps(command: string, all: seq<MuxTrack>) returns (c: string)
    ensures c == command + MapArgs(all, 0)
  {
    c := command;
    for i := 0 to |all|
      invariant c == command + MapArgs(all[..i], 0)
    {
      var clause := "";
      if all[i].kind == Video {
        clause := "-map " + NatToString(i) + ":v ";
      }
      if all[i].kind == Audio {
        clause := "-map " + NatToString(i) + ":a ";
      }
      assert clause == MapArg(i, all[i]);
      MapArgsStep(all, i);
      c := c + clause;
    }
    assert all[..|all|] == all;
  }

  /** The command always starts with "ffmpeg " followed by the input clauses
      of the video tracks and then of the audio tracks. */
  lemma CommandInputsFirst(videoTracks: seq<MuxTrack>, audioTracks: seq<MuxTrack>, outputPath: string, target: string)
    ensures var c := Command(videoTracks + audioTracks, outputPath, target);
            StartsWith(c, "ffmpeg " + InputArgs(videoTracks) + InputArgs(audioTracks))
  {
    var all := videoTracks + audioTracks;
    InputArgsConcat(videoTracks, audioTracks);
    PrefixOfCommand("ffmpeg ", InputArgs(videoTracks), InputArgs(audioTracks),
                    MapArgs(all, 0), OutputClause(outputPath, target));
  }

  lemma PrefixOfCommand(a: string, b: string, c: string, d: string, e: string)
    ensures StartsWith(a + (b + c) + d + e, a + b + c)
  {
    var head := a + b + c;
    assert a + (b + c) + d + e == head + (d + e);
    assert (head + (d + e))[..|head|] == head;
  }

  /** Only ".mkv" and ".mp4" targets get an output clause, and it names the
      target file. */
  lemma OutputClauseCases(outputPath: string, target: string)
    ensures !EndsWith(outputPath, ".mkv") && !EndsWith(outputPath, ".mp4") ==> OutputClause(outputPath, target) == ""
    ensures EndsWith(outputPath, ".mkv") || EndsWith(outputPath, ".mp4") ==>
      EndsWith(OutputClause(outputPath, target), "\"" + target + "\"")
  {
    var quoted := "\"" + target + "\"";
    var c := OutputClause(outputPath, target);
    if EndsWith(outputPath, ".mkv") {
      EndsWithAppended("-c copy -reserve_index_space 200k ", quoted);
      assert c == "-c copy -reserve_index_space 200k " + quoted;
    } else if EndsWith(outputPath, ".mp4") {
      EndsWithAppended("-c copy -movflags faststart ", quoted);
      assert c == "-c copy -movflags faststart " + quoted;
    }
  }

  lemma EndsWithAppended(a: string, b: string)
    ensures EndsWith(a + b, b)
  {
    assert (a + b)[|a + b| - |b|..] == b;
  }
}
