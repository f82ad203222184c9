/** The `ConcatMethod` enumeration and `analyseConcatMethod`: probe the second
    chunk file with ffprobe and decide from the timestamp of its first packet
    whether chunks can be joined byte by byte. The ffprobe child process, the
    file read and the 25-second timer are inputs here. */
module AnalyseConcatMethod {
  import opened Wrappers

  /** A numeric TypeScript enum: UNKNOWN = 0, DIRECT_CONCAT = 1, FFMPEG_CONCAT = 2. */
  datatype ConcatMethod = Unknown | DirectConcat | FfmpegConcat

  function Ordinal(m: ConcatMethod): (r: nat)
    ensures r <= 2
    ensures r == 0 <==> m == Unknown
  {
    match m
    case Unknown => 0
    case DirectConcat => 1
    case FfmpegConcat => 2
  }

  /** The member whose ordinal is `n`, if any. */
  function FromOrdinal(n: int): (r: Option<ConcatMethod>)
    ensures r.Some? <==> 0 <= n <= 2
    ensures r.Some? ==> Ordinal(r.value) == n
  {
    if n == 0 then Some(Unknown)
    else if n == 1 then Some(DirectConcat)
    else if n == 2 then Some(FfmpegConcat)
    else None
  }

  /** The time after which the probe is abandoned, in milliseconds. */
  const ProbeTimeoutMs: nat := 25000

  /** One packet of ffprobe's `-show_packets` JSON; `pts` may be absent. */
  datatype Packet = Packet(pts: Option<int>)

  /** What running the probe command and reading its output gave. */
  datatype ProbeOutcome =
    | CommandFailed                            // the child process failed, or the .packets file could not be read
    | OutputUnparsable                         // JSON.parse threw
    | Parsed(packets: Option<seq<Packet>>)     // the parsed object; its `packets` property may be missing

  /** The command line: only the second file is inspected. */
  function ProbeCommand(file1: string, file2: string): string {
    "ffprobe -i \"" + file2 + "\" -hide_banner -show_packets -print_format json>" + file2 + ".packets"
  }

  /** The probe never looks at its first argument. */
  lemma ProbeIgnoresFirstFile(a: string, b: string, file2: string)
    ensures ProbeCommand(a, file2) == ProbeCommand(b, file2)
  {
  }

  predicate HasFirstPacket(o: ProbeOutcome) {
    o.Parsed? && o.packets.Some? && |o.packets.value| > 0
  }

  /** The promise's value when the probe settles after `probeMs` milliseconds;
      the timer, armed first, wins when the probe has not settled before it. */
  function Classify(o: ProbeOutcome, probeMs: nat): (r: ConcatMethod)
    ensures r == Unknown <==> probeMs >= ProbeTimeoutMs || !HasFirstPacket(o)
    ensures r == FfmpegConcat <==>
      probeMs < ProbeTimeoutMs && HasFirstPacket(o) && o.packets.value[0].pts == Some(0)
    ensures r == DirectConcat <==>
      probeMs < ProbeTimeoutMs && HasFirstPacket(o) && o.packets.value[0].pts != Some(0)
  {
    if probeMs >= ProbeTimeoutMs then Unknown
    else match o
      case CommandFailed => Unknown
      case OutputUnparsable => Unknown
      case Parsed(packets) =>
        if packets.None? || |packets.value| == 0 then Unknown   // reading `.pts` of undefined throws
        else if packets.value[0].pts == Some(0) then FfmpegConcat
        else DirectConcat
  }
}
