/** The bookkeeping `beforeExit` does over the finished downloads: order them
    by segment number, split them by kind, keep the video segments whose audio
    twin arrived, cut the result into runs of consecutive numbers (one output
    file per run), and name each output. */
module Reconcile {
  import opened Wrappers
  import opened JsText
  import JsArray
  import opened VideoMuxing

  /** A download task: one segment of one kind, the attempts it has failed so
      far, and the file it is saved to. */
  datatype Task = Task(kind: TrackKind, url: string, id: nat, retry: nat, outputPath: string)

  function IdOf(t: Task): int { t.id }

  /** The comparator `(a, b) => a.id - b.id` is negative. */
  predicate IdBefore(a: Task, b: Task) { a.id - b.id < 0 }

  function SortById(ts: seq<Task>): seq<Task> {
    JsArray.SortBy(ts, IdBefore)
  }

  /** Sorting keeps every task and orders them by segment number. */
  lemma SortByIdOrders(ts: seq<Task>)
    ensures multiset(SortById(ts)) == multiset(ts)
    ensures JsArray.SortedByKey(SortById(ts), IdOf)
  {
    JsArray.SortBySorted(ts, IdBefore, IdOf);
  }

  function OfKind(ts: seq<Task>, kind: TrackKind): seq<Task> {
    JsArray.Filter(ts, (t: Task) => t.kind == kind)
  }

  /** The segment numbers of the finished audio tasks (`audioIdFlags`). */
  function IdSet(ts: seq<Task>): set<nat> {
    set i | 0 <= i < |ts| :: ts[i].id
  }

  /** `filter((t) => audioIdFlags[t.id])`. */
  function KeepPaired(video: seq<Task>, audio: seq<Task>): seq<Task> {
    JsArray.Filter(video, (t: Task) => t.id in IdSet(audio))
  }

  /** The kept video tasks are exactly those with an audio twin, in the order
      they had. */
  lemma KeepPairedExact(video: seq<Task>, audio: seq<Task>)
    ensures forall i :: 0 <= i < |KeepPaired(video, audio)| ==> KeepPaired(video, audio)[i].id in IdSet(audio)
    ensures forall i :: 0 <= i < |video| && video[i].id in IdSet(audio) ==> video[i] in KeepPaired(video, audio)
    ensures multiset(KeepPaired(video, audio)) <= multiset(video)
    ensures JsArray.SortedByKey(video, IdOf) ==> JsArray.SortedByKey(KeepPaired(video, audio), IdOf)
  {
    if JsArray.SortedByKey(video, IdOf) {
      JsArray.FilterSorted(video, (t: Task) => t.id in IdSet(audio), IdOf);
    }
  }

  // ---------------------------------------------------------------------------
  // the drop counter
  // ---------------------------------------------------------------------------

  /** How many of `ts` satisfy `p`. */
  function CountWhere(ts: seq<Task>, p: Task -> bool): (n: nat)
    ensures n <= |ts|
  {
    if ts == [] then 0 else (if p(ts[0]) then 1 else 0) + CountWhere(ts[1..], p)
  }

  /** The counter as written: its test is the negation of the flags array
      itself, and an array object is always truthy. */
  function DropCounterAsWritten(video: seq<Task>, audio: seq<Task>): nat {
    var flagsArrayTruthy := true;
    CountWhere(video, (t: Task) => !flagsArrayTruthy)
  }

  /** The number of video segments discarded for want of an audio twin. */
  function DroppedCount(video: seq<Task>, audio: seq<Task>): nat {
    CountWhere(video, (t: Task) => t.id !in IdSet(audio))
  }

  /** A filter keeps what the count does not count. */
  lemma {:induction false} CountComplement(ts: seq<Task>, p: Task -> bool, q: Task -> bool)
    requires forall i :: 0 <= i < |ts| ==> (q(ts[i]) <==> !p(ts[i]))
    ensures CountWhere(ts, q) == |ts| - |JsArray.Filter(ts, p)|
    decreases |ts|
  {
    if ts != [] {
      CountComplement(ts[1..], p, q);
    }
  }

  /** The intended counter is the number of video tasks the filter removed. */
  lemma DroppedCountIsRemoved(video: seq<Task>, audio: seq<Task>)
    ensures DroppedCount(video, audio) == |video| - |KeepPaired(video, audio)|
  {
    CountComplement(video, (t: Task) => t.id in IdSet(audio), (t: Task) => t.id !in IdSet(audio));
  }

  lemma {:induction false} CountNever(ts: seq<Task>)
    ensures CountWhere(ts, (t: Task) => !true) == 0
    decreases |ts|
  {
    if ts != [] {
      CountNever(ts[1..]);
    }
  }

  /** With equal counts, video 1 and 2 against audio 2 and 3, one video
      segment is discarded but the counter as written stays 0, so the warning
      is never logged. */
  lemma DropCounterStaysZero()
    ensures var video := [Task(Video, "v1", 1, 0, "v/1"), Task(Video, "v2", 2, 0, "v/2")];
      var audio := [Task(Audio, "a2", 2, 0, "a/2"), Task(Audio, "a3", 3, 0, "a/3")];
      && |video| == |audio|
      && DropCounterAsWritten(video, audio) == 0
      && DroppedCount(video, audio) == 1
  {
    var video := [Task(Video, "v1", 1, 0, "v/1"), Task(Video, "v2", 2, 0, "v/2")];
    var audio := [Task(Audio, "a2", 2, 0, "a/2"), Task(Audio, "a3", 3, 0, "a/3")];
    CountNever(video);
    assert IdSet(audio) == {2, 3} by {
      assert audio[0].id == 2 && audio[1].id == 3;
    }
    assert video[1..] == [video[1]];
    assert video[1..][1..] == [];
  }

  // ---------------------------------------------------------------------------
  // the first run, as written
  // ---------------------------------------------------------------------------

  /** `finishedVideoTasks[0]`, which is undefined for an empty list; the
      output loop later reads its `id`. */
  function FirstRunSeedAsWritten(kept: seq<Task>): (seed: Option<Task>)
    ensures seed.None? <==> kept == []
  {
    if |kept| > 0 then Some(kept[0]) else None
  }

  /** Video 1 against audio 2: both kinds finished in equal numbers, yet no
      video task is kept, so the first run holds undefined and reading its
      `id` throws a TypeError outside any `try`: the run ends without cleanup
      or the summary. */
  lemma NoPairsReachesUndefined()
    ensures var finished := [Task(Video, "v1", 1, 0, "v/1"), Task(Audio, "a2", 2, 0, "a/2")];
      var video := OfKind(finished, Video);
      var audio := OfKind(finished, Audio);
      && |video| == |audio| == 1
      && FirstRunSeedAsWritten(KeepPaired(video, audio)).None?
  {
    var finished := [Task(Video, "v1", 1, 0, "v/1"), Task(Audio, "a2", 2, 0, "a/2")];
    assert finished[1..] == [finished[1]];
    var video := OfKind(finished, Video);
    var audio := OfKind(finished, Audio);
    assert video == [finished[0]];
    assert audio == [finished[1]];
    assert IdSet(audio) == {2} by {
      assert audio[0].id == 2;
    }
    assert KeepPaired(video, audio) == [] by {
      assert video[1..] == [];
    }
  }

  // ---------------------------------------------------------------------------
  // runs of consecutive segment numbers
  // ---------------------------------------------------------------------------

  function Last(run: seq<Task>): Task
    requires |run| > 0
  {
    run[|run| - 1]
  }

  function Flatten(runs: seq<seq<Task>>): (ts: seq<Task>)
    decreases |runs|
  {
    if runs == [] then [] else Flatten(runs[..|runs| - 1]) + runs[|runs| - 1]
  }

  predicate Consecutive(run: seq<Task>) {
    forall j :: 0 < j < |run| ==> run[j].id - run[j - 1].id == 1
  }

  /** `runs` cuts `ts` into maximal runs of consecutive segment numbers: no
      run is empty, together they are `ts`, inside a run each number is one
      more than the previous, and a run starts exactly where that fails. */
  predicate IsRunSplit(runs: seq<seq<Task>>, ts: seq<Task>) {
    && (forall i :: 0 <= i < |runs| ==> |runs[i]| > 0)
    && Flatten(runs) == ts
    && (forall i :: 0 <= i < |runs| ==> Consecutive(runs[i]))
    && (forall i :: 0 < i < |runs| ==> runs[i][0].id - Last(runs[i - 1]).id != 1)
  }

  lemma FlattenSnoc(runs: seq<seq<Task>>, r: seq<Task>)
    ensures Flatten(runs + [r]) == Flatten(runs) + r
  {
    assert (runs + [r])[..|runs|] == runs;
  }

  /** The runs of the first `n` tasks, built from the front as the loop
      does: a task whose number follows the previous one extends the last
      run, any other starts a new one. */
  function Runs(ts: seq<Task>, n: nat): (runs: seq<seq<Task>>)
    requires 1 <= n <= |ts|
    ensures |runs| > 0 && |runs[|runs| - 1]| > 0 && Last(runs[|runs| - 1]) == ts[n - 1]
  {
    if n == 1 then [[ts[0]]]
    else
      var r := Runs(ts, n - 1);
      if ts[n - 1].id - ts[n - 2].id != 1 then r + [[ts[n - 1]]]
      else r[..|r| - 1] + [r[|r| - 1] + [ts[n - 1]]]
  }

  /** `Runs` cuts the first `n` tasks into maximal runs of consecutive
      numbers. */
  lemma {:induction false} RunsAreSplit(ts: seq<Task>, n: nat)
    requires 1 <= n <= |ts|
    ensures IsRunSplit(Runs(ts, n), ts[..n])
  {
    if n == 1 {
      assert ts[..1] == [ts[0]];
      assert Flatten([[ts[0]]]) == Flatten([]) + [ts[0]];
    } else {
      RunsAreSplit(ts, n - 1);
      RunsStep(ts, n);
    }
  }

  /** The step of `RunsAreSplit`: task `n - 1` starts or extends a run. */
  lemma RunsStep(ts: seq<Task>, n: nat)
    requires 2 <= n <= |ts|
    requires IsRunSplit(Runs(ts, n - 1), ts[..n - 1])
    ensures IsRunSplit(Runs(ts, n), ts[..n])
  {
    var r, done, t := Runs(ts, n - 1), ts[..n - 1], ts[n - 1];
    assert ts[..n] == done + [t];
    if t.id - ts[n - 2].id != 1 {
      var next := r + [[t]];
      assert Runs(ts, n) == next;
      StartRun(r, done, t);
    } else {
      var next := r[..|r| - 1] + [r[|r| - 1] + [t]];
      assert Runs(ts, n) == next;
      ExtendRun(r, done, t);
    }
  }

  /** The run-building loop, given a non-empty list. */
  method SplitRuns(ts: seq<Task>) returns (runs: seq<seq<Task>>)
    requires |ts| > 0
    ensures runs == Runs(ts, |ts|)
  {
    runs := [[ts[0]]];
    var i := 1;
    while i <= |ts| - 1
      invariant 1 <= i <= |ts|
      invariant runs == Runs(ts, i)
    {
      if ts[i].id - ts[i - 1].id != 1 {
        runs := runs + [[ts[i]]];
      } else {
        runs := runs[..|runs| - 1] + [runs[|runs| - 1] + [ts[i]]];
      }
      i := i + 1;
    }
  }

  /** A task whose number does not follow the last one starts a new run. */
  lemma StartRun(runs: seq<seq<Task>>, done: seq<Task>, t: Task)
    requires IsRunSplit(runs, done) && |runs| > 0
    requires t.id - Last(runs[|runs| - 1]).id != 1
    ensures IsRunSplit(runs + [[t]], done + [t])
  {
    FlattenSnoc(runs, [t]);
    var r := runs + [[t]];
    assert forall i :: 0 <= i < |runs| ==> r[i] == runs[i];
  }

  /** A task whose number follows the last one extends the last run. */
  lemma ExtendRun(runs: seq<seq<Task>>, done: seq<Task>, t: Task)
    requires IsRunSplit(runs, done) && |runs| > 0
    requires t.id - Last(runs[|runs| - 1]).id == 1
    ensures IsRunSplit(runs[..|runs| - 1] + [runs[|runs| - 1] + [t]], done + [t])
  {
    var init := runs[..|runs| - 1];
    var last := runs[|runs| - 1];
    assert runs == init + [last];
    FlattenSnoc(init, last);
    FlattenSnoc(init, last + [t]);
    var r := init + [last + [t]];
    ExtendConsecutive(last, t);
    forall i | 0 <= i < |r| ensures |r[i]| > 0 && Consecutive(r[i]) {
      if i < |init| {
        assert r[i] == runs[i];
      }
    }
    forall i | 0 < i < |r| ensures r[i][0].id - Last(r[i - 1]).id != 1 {
      assert r[i - 1] == runs[i - 1];
      if i < |init| {
        assert r[i] == runs[i];
      } else {
        assert r[i][0] == runs[i][0];
      }
    }
  }

  /** Appending the number after the last keeps a run consecutive. */
  lemma ExtendConsecutive(last: seq<Task>, t: Task)
    requires |last| > 0 && Consecutive(last) && t.id - Last(last).id == 1
    ensures Consecutive(last + [t])
  {
    forall j | 0 < j < |last + [t]| ensures (last + [t])[j].id - (last + [t])[j - 1].id == 1 {
      if j < |last| {
        assert (last + [t])[j] == last[j] && (last + [t])[j - 1] == last[j - 1];
      }
    }
  }

  /** With `forceMerge`, several runs become one; a single run stays. */
  function ForceMerge(runs: seq<seq<Task>>, forceMerge: bool): (r: seq<seq<Task>>)
    ensures Flatten(r) == Flatten(runs)
    ensures |runs| > 1 && forceMerge ==> |r| == 1
    ensures !(|runs| > 1 && forceMerge) ==> r == runs
  {
    if |runs| > 1 && forceMerge then
      assert Flatten([Flatten(runs)]) == Flatten([]) + Flatten(runs);
      [Flatten(runs)]
    else runs
  }

  /** Each number of a run is its first number plus its position. */
  lemma {:induction false} ConsecutiveNumbers(run: seq<Task>, j: nat)
    requires Consecutive(run) && j < |run|
    ensures run[j].id == run[0].id + j
    decreases j
  {
    if j > 0 {
      ConsecutiveNumbers(run, j - 1);
    }
  }

  // ---------------------------------------------------------------------------
  // naming the outputs
  // ---------------------------------------------------------------------------

  /** `${outputFilename}${suffix ? `_${suffix}` : ""}.mp4`, with suffix
      `i + 1` when there is more than one output. */
  function OutputTarget(title: string, useSuffix: bool, i: nat): string {
    title + (if useSuffix then "_" + NatToString(i + 1) else "") + ".mp4"
  }

  /** `#<first> - #<last>`. */
  function Description(run: seq<Task>): string
    requires |run| > 0
  {
    "#" + NatToString(run[0].id) + " - #" + NatToString(Last(run).id)
  }

  lemma NatToStringInjective(a: nat, b: nat)
    requires NatToString(a) == NatToString(b)
    ensures a == b
  {
    NatToStringValue(a);
    NatToStringValue(b);
  }

  /** With suffixes, outputs of different runs get different file names. */
  lemma TargetsDistinct(title: string, i: nat, j: nat)
    requires i != j
    ensures OutputTarget(title, true, i) != OutputTarget(title, true, j)
  {
    var a := NatToString(i + 1);
    var b := NatToString(j + 1);
    if OutputTarget(title, true, i) == OutputTarget(title, true, j) {
      var s := OutputTarget(title, true, i);
      assert s == title + "_" + a + ".mp4";
      assert s == title + "_" + b + ".mp4";
      assert |a| == |b|;
      assert a == s[|title| + 1..|title| + 1 + |a|] == b;
      NatToStringInjective(i + 1, j + 1);
    }
  }

  /** The muxer sees an ".mp4" extension, so it asks ffmpeg for a faststart
      MP4, and the name before it is the title with its suffix. */
  lemma TargetIsMp4(title: string, useSuffix: bool, i: nat)
    requires '/' !in title
    requires title != "" || useSuffix
    ensures Ext(Base(OutputTarget(title, useSuffix, i))) == ".mp4"
    ensures Name(Base(OutputTarget(title, useSuffix, i))) ==
      title + (if useSuffix then "_" + NatToString(i + 1) else "")
  {
    var stem := title + (if useSuffix then "_" + NatToString(i + 1) else "");
    var t := OutputTarget(title, useSuffix, i);
    assert t == stem + ".mp4";
    assert '/' !in t by {
      var d := NatToString(i + 1);
      assert forall k :: 0 <= k < |d| ==> IsDigit(d[k]);
      assert forall k :: 0 <= k < |t| ==> t[k] != '/' by {
        forall k | 0 <= k < |t| ensures t[k] != '/' {
          if k < |title| {
            assert t[k] == title[k];
          } else if useSuffix && k < |stem| {
            assert k == |title| || t[k] == d[k - |title| - 1];
          }
        }
      }
    }
    BaseWithoutSlash(t);
    assert t[|t| - 4..] == ".mp4";
    Mp4Ext(t);
  }

  lemma BaseWithoutSlash(p: string)
    requires '/' !in p
    ensures Base(p) == p
  {
    assert TrimTrailingSlashes(p) == p by {
      if p != [] {
        assert p[|p| - 1] != '/';
      }
    }
  }

  /** The description names the first and the last segment of the run, and
      for a consecutive run they are `|run| - 1` apart. */
  lemma DescriptionSpan(run: seq<Task>)
    requires |run| > 0 && Consecutive(run)
    ensures Last(run).id == run[0].id + |run| - 1
    ensures Description(run) == "#" + NatToString(run[0].id) + " - #" + NatToString(run[0].id + |run| - 1)
  {
    ConsecutiveNumbers(run, |run| - 1);
  }

  /** The path of one chunk file: `<dir>/<id>`. */
  function ChunkPaths(dir: string, run: seq<Task>): (ps: seq<string>)
    ensures |ps| == |run|
    ensures forall k :: 0 <= k < |run| ==> ps[k] == dir + "/" + NatToString(run[k].id)
  {
    seq(|run|, k requires 0 <= k < |run| => dir + "/" + NatToString(run[k].id))
  }

  function ChunkNames(run: seq<Task>): (ns: seq<string>)
    ensures |ns| == |run|
  {
    seq(|run|, k requires 0 <= k < |run| => NatToString(run[k].id))
  }
}
