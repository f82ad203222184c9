/** How the chunks of one output are joined, shared by the live and the
    non-live downloader: byte-wise concatenation of the chunk files ("direct")
    or ffmpeg's concat demuxer fed by a list file. A user override wins;
    otherwise ffprobe decides; when it cannot, the decision is guessed from the
    stream's flags and the temporary files are kept. */
module ConcatDecision {
  import opened Wrappers
  import opened JsText
  import opened AnalyseConcatMethod

  /** The `concatMethod` option as it reaches the downloader: absent, a
      number, a text, or a bare flag. */
  datatype RawOption = Unset | NumberValue(n: int) | TextValue(s: string) | FlagValue(b: bool)

  predicate Truthy(raw: RawOption) {
    match raw
    case Unset => false
    case NumberValue(n) => n != 0
    case TextValue(s) => s != ""
    case FlagValue(b) => b
  }

  /** The live downloader stores the option as given and compares it with
      `=== ConcatMethod.DIRECT_CONCAT`: `Some(direct)` when it overrides. */
  function StrictOverride(raw: RawOption): (o: Option<bool>)
    ensures o.Some? <==> Truthy(raw)
    ensures o == Some(true) <==> raw == NumberValue(Ordinal(DirectConcat))
  {
    if Truthy(raw) then Some(raw == NumberValue(1)) else None
  }

  function TrimEnd(s: string): (t: string)
    ensures |t| <= |s| && t == s[..|t|]
    ensures t != [] ==> !IsJsWhiteSpace(t[|t| - 1])
  {
    if s != [] && IsJsWhiteSpace(s[|s| - 1]) then TrimEnd(s[..|s| - 1]) else s
  }

  /** Unary `+`: a number stays, a flag gives 1 or 0, a text is read as a
      decimal integer between white space (empty text is 0). */
  function Coerce(raw: RawOption): Num {
    match raw
    case Unset => NaN
    case NumberValue(n) => Num(n)
    case FlagValue(b) => Num(if b then 1 else 0)
    case TextValue(s) =>
      var t := TrimEnd(TrimStart(s));
      if t == "" then Num(0)
      else if forall i :: 0 <= i < |t| ==> IsDigit(t[i]) then Num(DigitsValue(t, 10))
      else NaN
  }

  /** The non-live downloader stores `+concatMethod` when the option is
      truthy and then tests the stored number for truthiness. */
  function CoercedOverride(raw: RawOption): (o: Option<bool>)
    ensures o.Some? ==> Truthy(raw)
    ensures o == Some(true) <==> Coerce(raw) == Num(Ordinal(DirectConcat))
  {
    var c := Coerce(raw);
    if Truthy(raw) && c.Num? && c.n != 0 then Some(c.n == 1) else None
  }

  /** Both readings agree on a number, and only there. */
  lemma OverridesOnNumbers(n: int)
    ensures StrictOverride(NumberValue(n)) == CoercedOverride(NumberValue(n))
  {
  }

  /** A one-digit text reads as that digit under unary `+`. */
  lemma CoerceDigit(c: char)
    requires IsDigit(c)
    ensures Coerce(TextValue([c])) == Num(c as int - '0' as int)
  {
    var t := [c];
    assert !IsJsWhiteSpace(t[0]);
    assert TrimStart(t) == t;
    assert TrimEnd(t) == t;
    assert forall i :: 0 <= i < |t| ==> IsDigit(t[i]);
    assert t[..0] == [] && t[|t| - 1] == c;
    assert DigitsValue(t, 10) == DigitValue(c);
    assert Coerce(TextValue(t)) == Num(DigitsValue(t, 10));
  }

  /** On the text "1" and on a bare flag they disagree: the non-live
      downloader joins directly, the live one uses ffmpeg's concat demuxer. */
  lemma OverridesDisagree()
    ensures StrictOverride(TextValue("1")) == Some(false)
    ensures CoercedOverride(TextValue("1")) == Some(true)
    ensures StrictOverride(FlagValue(true)) == Some(false)
    ensures CoercedOverride(FlagValue(true)) == Some(true)
  {
    CoerceDigit('1');
  }

  /** The outcome of the decision. `probed`: ffprobe was run on the first two
      chunks; `guessing`: the flags decided, and temporary files are kept. */
  datatype Decision = Decision(useDirect: bool, guessing: bool, probed: bool)

  /** The decision cascade: override, then probe, then guess. `probe` is what
      analysing the first two chunks gives when it is run; a single chunk is
      joined directly without probing. */
  method Decide(override: Option<bool>, ffprobeAvailable: bool, singleChunk: bool, probe: ConcatMethod,
                isPremiumVideo: bool, isLowLatencyLiveStream: bool) returns (d: Decision)
    ensures override.Some? ==> d == Decision(override.value, false, false)
    ensures d.probed <==> override.None? && ffprobeAvailable && !singleChunk
    ensures d.guessing <==> override.None? && (!ffprobeAvailable || (!singleChunk && probe == Unknown))
    ensures d.guessing ==> (d.useDirect <==> !isPremiumVideo && isLowLatencyLiveStream)
    ensures override.None? && !d.guessing ==> (d.useDirect <==> singleChunk || probe == DirectConcat)
  {
    var useDirectConcat := true;
    var concatMethodGuessing := false;
    var probed := false;
    if override.Some? {
      useDirectConcat := override.value;
      concatMethodGuessing := false;
    } else {
      if !ffprobeAvailable {
        concatMethodGuessing := true;
      } else {
        if singleChunk {
          // nothing to compare
        } else {
          probed := true;
          if probe == FfmpegConcat {
            useDirectConcat := false;
          }
          if probe == Unknown {
            concatMethodGuessing := true;
          }
        }
      }
    }
    if concatMethodGuessing {
      if isPremiumVideo {
        useDirectConcat := false;
      } else {
        if !isLowLatencyLiveStream {
          useDirectConcat := false;
        }
      }
    }
    d := Decision(useDirectConcat, concatMethodGuessing, probed);
  }

  // ---------------------------------------------------------------------------
  // list files for ffmpeg's concat demuxer
  // ---------------------------------------------------------------------------

  /** `file '<dir>/<name>'`. */
  function ListLine(dir: string, name: string): string {
    "file '" + dir + "/" + name + "'"
  }

  function ListLines(dir: string, names: seq<string>): (lines: seq<string>)
    ensures |lines| == |names|
    ensures forall i :: 0 <= i < |names| ==> lines[i] == ListLine(dir, names[i])
  {
    seq(|names|, i requires 0 <= i < |names| => ListLine(dir, names[i]))
  }

  /** The list file: one line per chunk, joined by "\n" (no final newline). */
  function ListFile(dir: string, names: seq<string>): string {
    Join(ListLines(dir, names), '\n')
  }

  /** The name a list line refers to, when it has the expected shape. */
  function NameOfLine(dir: string, line: string): Option<string> {
    var head := "file '" + dir + "/";
    if |line| >= |head| + 1 && line[..|head|] == head && line[|line| - 1] == '\''
    then Some(line[|head|..|line| - 1])
    else None
  }

  lemma NameOfListLine(dir: string, name: string)
    ensures NameOfLine(dir, ListLine(dir, name)) == Some(name)
  {
    var head := "file '" + dir + "/";
    var line := ListLine(dir, name);
    assert line == head + name + "'";
    assert line[..|head|] == head;
    assert line[|head|..|line| - 1] == name;
  }

  /** Reading the list file back line by line gives the chunk names in order,
      provided no name and not the directory holds a line break. */
  lemma ListFileRoundTrip(dir: string, names: seq<string>)
    requires '\n' !in dir
    requires forall i :: 0 <= i < |names| ==> '\n' !in names[i]
    requires |names| >= 1
    ensures var lines := Split(ListFile(dir, names), '\n');
      && |lines| == |names|
      && forall i :: 0 <= i < |names| ==> NameOfLine(dir, lines[i]) == Some(names[i])
  {
    var lines := ListLines(dir, names);
    forall i | 0 <= i < |lines| ensures '\n' !in lines[i] {
      assert lines[i] == "file '" + dir + "/" + names[i] + "'";
    }
    SplitJoin(lines, '\n');
    forall i | 0 <= i < |names| ensures NameOfLine(dir, lines[i]) == Some(names[i]) {
      NameOfListLine(dir, names[i]);
    }
  }
}
