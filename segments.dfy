/** The value-level logic of the segmented video recording: segment records and
    their names, the size threshold that triggers a rotation, the video-only
    monitor as a function of the polls it makes, the muxer step that pairs a
    video segment with its audio, and the final renaming of a session. */
module Segments {
  import opened Common

  /** Rotation threshold: 50 MiB. */
  const SegmentThreshold: nat := 50 * 1024 * 1024

  /** One entry of `segments`: the file holding the segment and the clock
      readings at which it started and ended. */
  datatype SegmentRecord = SegmentRecord(file: Path, start: Moment, end: Moment)

  /** One entry of the list stop_recording returns. */
  datatype FinalSegment = FinalSegment(file: Path, start: string, end: string)

  /** generate_video_filename: Videos/temp_vdo_{date}_{time}.mp4. */
  function VideoTempName(m: Moment): Path
  {
    "Videos/temp_vdo_" + m.date + "_" + m.time + ".mp4"
  }

  /** A temp video file is an .mp4 file in Videos/. */
  lemma VideoTempNameIsVideo(m: Moment)
    ensures var p := VideoTempName(m); InFolder(p, "Videos/") && HasExtension(p, ".mp4")
  {
  }

  /** Output of the muxer: merged_{session}_{chunk}_{start}_to_{end}_{category}.mp4. */
  function MergedName(session: nat, chunk: nat, start: Moment, end: Moment, category: string): Path
  {
    "Videos/merged_" + DecimalString(session) + "_" + DecimalString(chunk) + "_"
      + Stamp(start) + "_to_" + Stamp(end) + "_" + category + ".mp4"
  }

  /** A muxer output is an .mp4 file in Videos/. */
  lemma MergedNameIsVideo(session: nat, chunk: nat, start: Moment, end: Moment, category: string)
    ensures var p := MergedName(session, chunk, start, end, category); InFolder(p, "Videos/") && HasExtension(p, ".mp4")
  {
  }

  /** Permanent name of the segment at 1-based position `ordinal` of a session. */
  function FinalName(prefix: string, session: nat, ordinal: nat, seg: SegmentRecord, category: string): Path
  {
    "Videos/" + prefix + "_" + DecimalString(session) + "_" + DecimalString(ordinal) + "_"
      + Stamp(seg.start) + "_to_" + Stamp(seg.end) + "_" + category + ".mp4"
  }

  /** A permanent segment name is an .mp4 file in Videos/. */
  lemma FinalNameIsVideo(prefix: string, session: nat, ordinal: nat, seg: SegmentRecord, category: string)
    ensures var p := FinalName(prefix, session, ordinal, seg, category); InFolder(p, "Videos/") && HasExtension(p, ".mp4")
  {
  }

  /** The prefix of the final names: merged when the session recorded audio,
      vdo otherwise, so the two kinds of session never share a prefix. */
  function Prefix(withAudio: bool): (prefix: string)
    ensures prefix == "merged" <==> withAudio
    ensures prefix == "vdo" <==> !withAudio
  {
    if withAudio then "merged" else "vdo"
  }

  /** A temp video file is never overwritten by, or confused with, a muxer output. */
  lemma TempNameNotMerged(m: Moment, session: nat, chunk: nat, start: Moment, end: Moment, category: string)
    ensures VideoTempName(m) != MergedName(session, chunk, start, end, category)
  {
    assert VideoTempName(m)[7] == 't';
    assert MergedName(session, chunk, start, end, category)[7] == 'm';
  }

  /** The records follow one another without a gap, from `from` to `to`: each
      segment starts where the previous one ended. */
  predicate Contiguous(from: Moment, segs: seq<SegmentRecord>, to: Moment)
  {
    && (segs == [] ==> from == to)
    && (segs != [] ==> segs[0].start == from && segs[|segs| - 1].end == to)
    && (forall i :: 0 < i < |segs| ==> segs[i - 1].end == segs[i].start)
  }

  /** Closing the open segment at `t` keeps the chain gap-free, now up to `t`. */
  lemma ContiguousExtend(from: Moment, segs: seq<SegmentRecord>, to: Moment, file: Path, t: Moment)
    requires Contiguous(from, segs, to)
    ensures Contiguous(from, segs + [SegmentRecord(file, to, t)], t)
  {
  }

  /** One size check of the monitor: `written` is what the camera has written to
      the current file by then (None: the file did not change); `at` is the
      clock reading that ends a segment and `fileAt` the later one that names
      the next temp file. */
  datatype Poll = Poll(written: Option<nat>, at: Moment, fileAt: Moment)

  /** What the video-only monitor works on: the file system, the session's
      records, the file being recorded and the time it was started. */
  datatype Monitor = Monitor(fs: FileSystem, segments: seq<SegmentRecord>, current: Path, start: Moment)

  function DeviceWrote(fs: FileSystem, file: Path, written: Option<nat>): FileSystem
  {
    if written.Some? then fs[file := written.value] else fs
  }

  /** os.path.exists(file) and os.path.getsize(file) >= threshold: a file that
      does not exist is never at the threshold. */
  predicate AtThreshold(fs: FileSystem, file: Path)
    ensures AtThreshold(fs, file) ==> file in fs
  {
    file in fs && fs[file] >= SegmentThreshold
  }

  /** The check sees what the camera wrote: after a write the file is at the
      threshold exactly when the size written reaches it, without a write the
      check gives what it gave before, and a write to another file does not
      change it. */
  lemma WriteReachesThreshold(fs: FileSystem, file: Path, other: Path, written: Option<nat>)
    ensures written.Some? ==> (AtThreshold(DeviceWrote(fs, file, written), file) <==> written.value >= SegmentThreshold)
    ensures written.None? ==> (AtThreshold(DeviceWrote(fs, file, written), file) <==> AtThreshold(fs, file))
    ensures other != file ==> (AtThreshold(DeviceWrote(fs, other, written), file) <==> AtThreshold(fs, file))
  {
  }

  /** One iteration of monitor_video_size. The segment is closed and a new file
      started exactly when the current file has reached the threshold; the
      closed record runs from the current start to the poll's time, which
      becomes the start of the next segment, and the new file is named after a
      clock reading taken after the camera was stopped. */
  function PollStep(m: Monitor, p: Poll): (r: Monitor)
    ensures r.fs == DeviceWrote(m.fs, m.current, p.written)
    ensures |r.segments| == |m.segments| + 1 <==> AtThreshold(r.fs, m.current)
    ensures AtThreshold(r.fs, m.current) ==>
      && r.segments == m.segments + [SegmentRecord(m.current, m.start, p.at)]
      && r.start == p.at
      && r.current == VideoTempName(p.fileAt)
    ensures !AtThreshold(r.fs, m.current) ==>
      r.segments == m.segments && r.start == m.start && r.current == m.current
  {
    var fs := DeviceWrote(m.fs, m.current, p.written);
    if AtThreshold(fs, m.current) then
      Monitor(fs, m.segments + [SegmentRecord(m.current, m.start, p.at)], VideoTempName(p.fileAt), p.at)
    else
      m.(fs := fs)
  }

  /** The monitor after a run of polls. Each poll closes at most one segment. */
  function MonitorRun(m: Monitor, polls: seq<Poll>): (r: Monitor)
    ensures |r.segments| <= |m.segments| + |polls|
  {
    if polls == [] then m else PollStep(MonitorRun(m, polls[..|polls| - 1]), polls[|polls| - 1])
  }

  /** Rotation never rewrites a record: the records before the run stay as they were. */
  lemma {:induction false} MonitorKeepsRecords(m: Monitor, polls: seq<Poll>)
    ensures |MonitorRun(m, polls).segments| >= |m.segments|
    ensures MonitorRun(m, polls).segments[..|m.segments|] == m.segments
  {
    if polls != [] {
      MonitorKeepsRecords(m, polls[..|polls| - 1]);
    }
  }

  /** Segments are contiguous in video-only mode: whatever the polls, the records
      form a chain from the session start to the start of the open segment. */
  lemma {:induction false} MonitorKeepsChain(from: Moment, m: Monitor, polls: seq<Poll>)
    requires Contiguous(from, m.segments, m.start)
    ensures Contiguous(from, MonitorRun(m, polls).segments, MonitorRun(m, polls).start)
  {
    if polls != [] {
      var before := MonitorRun(m, polls[..|polls| - 1]);
      MonitorKeepsChain(from, m, polls[..|polls| - 1]);
      if AtThreshold(DeviceWrote(before.fs, before.current, polls[|polls| - 1].written), before.current) {
        ContiguousExtend(from, before.segments, before.start, before.current, polls[|polls| - 1].at);
      }
    }
  }

  /** While no check finds the file at the threshold (it is below it, it was
      not written, or it does not exist yet) nothing rotates. */
  lemma {:induction false} MonitorBelowThreshold(m: Monitor, polls: seq<Poll>)
    requires forall k :: 0 < k <= |polls| ==> !AtThreshold(MonitorRun(m, polls[..k]).fs, m.current)
    ensures MonitorRun(m, polls).segments == m.segments
    ensures MonitorRun(m, polls).current == m.current && MonitorRun(m, polls).start == m.start
  {
    if polls != [] {
      var n := |polls| - 1;
      forall k | 0 < k <= n
        ensures !AtThreshold(MonitorRun(m, polls[..n][..k]).fs, m.current)
      {
        assert polls[..n][..k] == polls[..k];
      }
      MonitorBelowThreshold(m, polls[..n]);
      assert polls[..|polls|] == polls;
    }
  }

  /** Growth past the threshold N times gives exactly N closed segments: when
      every check finds a full file, each poll closes one record, which ends at
      that poll; the first holds the file that was open before the run and each
      later one the file opened when its predecessor was closed. */
  lemma {:induction false} MonitorEveryPollRotates(m: Monitor, polls: seq<Poll>)
    requires forall i :: 0 <= i < |polls| ==> polls[i].written.Some? && polls[i].written.value >= SegmentThreshold
    ensures var r := MonitorRun(m, polls);
      && |r.segments| == |m.segments| + |polls|
      && (polls != [] ==> r.segments[|m.segments|].file == m.current)
      && (polls != [] ==> r.current == VideoTempName(polls[|polls| - 1].fileAt) && r.start == polls[|polls| - 1].at)
      && (forall i :: 0 <= i < |polls| ==> r.segments[|m.segments| + i].end == polls[i].at)
      && (forall i :: 0 <= i < |polls| - 1 ==> r.segments[|m.segments| + i + 1].file == VideoTempName(polls[i].fileAt))
  {
    if polls != [] {
      var n := |polls| - 1;
      var prefix := polls[..n];
      MonitorEveryPollRotates(m, prefix);
      MonitorKeepsRecords(m, prefix);
      var before := MonitorRun(m, prefix);
      var r := MonitorRun(m, polls);
      assert r.segments == before.segments + [SegmentRecord(before.current, before.start, polls[n].at)];
    }
  }

  /** How the muxer process ends: exit status 0 (having written an output of the
      given size), a non-zero exit, or no process at all. */
  datatype MuxerRun = ExitZero(outputSize: nat) | ExitNonZero | LaunchFails

  /** The value merge_video_audio returns, or the exception that escapes it. */
  datatype MergeStatus = Merged(path: Path) | NotMerged | Raised(error: Error)

  datatype MergeResult = MergeResult(status: MergeStatus, fs: FileSystem)

  /** `media_category if media_category else ""`: no category gives an empty
      field, a category is used as it is. */
  function CategoryText(category: Option<string>): (text: string)
    ensures category.None? ==> text == ""
    ensures category.Some? ==> text == category.value
  {
    if category.Some? then category.value else ""
  }

  /** The category text is the only varying part at the end of a muxer output
      name: two calls for the same session, chunk and times name the same file
      exactly when their category texts agree, and an empty category, being
      false in Python, names the same file as no category. */
  lemma MergedNameCategory(session: nat, chunk: nat, start: Moment, end: Moment, c: Option<string>, c': Option<string>)
    ensures MergedName(session, chunk, start, end, CategoryText(c)) == MergedName(session, chunk, start, end, CategoryText(c'))
        <==> CategoryText(c) == CategoryText(c')
    ensures CategoryText(Some("")) == CategoryText(None)
  {
    var head := "Videos/merged_" + DecimalString(session) + "_" + DecimalString(chunk) + "_"
                  + Stamp(start) + "_to_" + Stamp(end) + "_";
    var a, b := CategoryText(c), CategoryText(c');
    if MergedName(session, chunk, start, end, a) == MergedName(session, chunk, start, end, b) {
      assert (head + a) + ".mp4" == (head + b) + ".mp4";
      SameMiddle(head, a, b, ".mp4");
    }
  }

  /** A string framed by the same head and tail is determined by the frame. */
  lemma SameMiddle(head: string, a: string, b: string, tail: string)
    requires (head + a) + tail == (head + b) + tail
    ensures a == b
  {
    var n := |head|;
    assert |a| == |b|;
    assert a == ((head + a) + tail)[n..n + |a|];
    assert b == ((head + b) + tail)[n..n + |b|];
  }

  /** merge_video_audio. On success both inputs are deleted and the merged path
      is returned. A non-zero exit is the one failure that is caught: nothing is
      deleted and None is returned. A launch failure, and a remove of an input
      that is not there, escape as exceptions. */
  function MergeVideoAudio(fs: FileSystem, session: nat, chunk: nat, video: Path, audio: Path,
                           start: Moment, end: Moment, category: Option<string>, run: MuxerRun): (r: MergeResult)
    ensures run.ExitNonZero? ==> r == MergeResult(NotMerged, fs)
    ensures run.LaunchFails? ==> r == MergeResult(Raised(LaunchFailure), fs)
    ensures r.status.Merged? ==>
      && run.ExitZero?
      && r.status.path == MergedName(session, chunk, start, end, CategoryText(category))
      && video !in r.fs && audio !in r.fs
    ensures r.status.Merged? && r.status.path != video && r.status.path != audio ==>
      r.status.path in r.fs && r.fs[r.status.path] == run.outputSize
    ensures run.ExitZero? && video in fs && audio in fs && video != audio ==> r.status.Merged?
    ensures r.status.Raised? && run.ExitZero? ==> r.status.error == FileNotFound
    ensures forall p :: p != video && p != audio && p != MergedName(session, chunk, start, end, CategoryText(category)) ==>
      (p in r.fs <==> p in fs) && (p in fs ==> r.fs[p] == fs[p])
  {
    var name := MergedName(session, chunk, start, end, CategoryText(category));
    match run
    case LaunchFails => MergeResult(Raised(LaunchFailure), fs)
    case ExitNonZero => MergeResult(NotMerged, fs)
    case ExitZero(size) =>
      var written := fs[name := size];
      match Remove(written, video)
      case Err(e) => MergeResult(Raised(e), written)
      case Ok(noVideo) =>
        match Remove(noVideo, audio)
        case Err(e) => MergeResult(Raised(e), noVideo)
        case Ok(noInputs) => MergeResult(Merged(name), noInputs)
  }

  datatype Finalized = Finalized(fs: FileSystem, finals: seq<FinalSegment>)

  /** The renaming stop_recording applies to a session's records, built from
      the back: record i is offered the final name with ordinal i + 1 and keeps
      its file when that rename fails; start and end are copied. `failing`
      holds the ordinals whose rename the system refuses. */
  function FinalizeRun(fs: FileSystem, segs: seq<SegmentRecord>, prefix: string, session: nat,
                       category: string, failing: set<nat>): (r: Finalized)
    ensures |r.finals| == |segs|
  {
    if segs == [] then Finalized(fs, [])
    else
      var n := |segs|;
      var before := FinalizeRun(fs, segs[..n - 1], prefix, session, category, failing);
      var seg := segs[n - 1];
      var name := FinalName(prefix, session, n, seg, category);
      var rn := Rename(before.fs, seg.file, name, n !in failing);
      Finalized(rn.fs, before.finals + [FinalSegment(if rn.ok then name else seg.file, seg.start.clock, seg.end.clock)])
  }

  /** What the renaming promises of a session's outputs: one per record, in
      order; output i is either the record's final name with ordinal i + 1 or,
      when the rename failed, the record's own file, and always the latter when
      the system refused ordinal i + 1; start and end are copied. */
  predicate FinalizesAs(finals: seq<FinalSegment>, segs: seq<SegmentRecord>, prefix: string, session: nat,
                        category: string, failing: set<nat>)
  {
    && |finals| == |segs|
    && (forall i :: 0 <= i < |segs| ==>
          finals[i].start == segs[i].start.clock && finals[i].end == segs[i].end.clock)
    && (forall i :: 0 <= i < |segs| ==>
          finals[i].file == FinalName(prefix, session, i + 1, segs[i], category) || finals[i].file == segs[i].file)
    && (forall i :: 0 <= i < |segs| && i + 1 in failing ==> finals[i].file == segs[i].file)
  }

  lemma {:induction false} FinalizeRunFinalizes(fs: FileSystem, segs: seq<SegmentRecord>, prefix: string, session: nat,
                                                category: string, failing: set<nat>)
    ensures FinalizesAs(FinalizeRun(fs, segs, prefix, session, category, failing).finals, segs, prefix, session, category, failing)
  {
    if segs != [] {
      var n := |segs|;
      FinalizeRunFinalizes(fs, segs[..n - 1], prefix, session, category, failing);
      var before := FinalizeRun(fs, segs[..n - 1], prefix, session, category, failing);
      var seg := segs[n - 1];
      var name := FinalName(prefix, session, n, seg, category);
      var ok := Rename(before.fs, seg.file, name, n !in failing).ok;
      var last := FinalSegment(if ok then name else seg.file, seg.start.clock, seg.end.clock);
      var finals := FinalizeRun(fs, segs, prefix, session, category, failing).finals;
      assert finals == before.finals + [last];
      forall i | 0 <= i < n
        ensures finals[i].start == segs[i].start.clock && finals[i].end == segs[i].end.clock
        ensures finals[i].file == FinalName(prefix, session, i + 1, segs[i], category) || finals[i].file == segs[i].file
        ensures i + 1 in failing ==> finals[i].file == segs[i].file
      {
        if i < n - 1 {
          assert segs[..n - 1][i] == segs[i];
          assert finals[i] == before.finals[i];
        }
      }
    }
  }

  /** When every rename fails the disk is untouched and each output keeps the
      file of its record. */
  lemma {:induction false} FinalizeAllRefused(fs: FileSystem, segs: seq<SegmentRecord>, prefix: string,
                                              session: nat, category: string, failing: set<nat>)
    requires forall k :: 1 <= k <= |segs| ==> k in failing
    ensures FinalizeRun(fs, segs, prefix, session, category, failing).fs == fs
    ensures forall i :: 0 <= i < |segs| ==> FinalizeRun(fs, segs, prefix, session, category, failing).finals[i].file == segs[i].file
  {
    if segs != [] {
      FinalizeAllRefused(fs, segs[..|segs| - 1], prefix, session, category, failing);
    }
  }

  /** The records name different files. */
  predicate DistinctFiles(segs: seq<SegmentRecord>)
  {
    forall i, j :: 0 <= i < j < |segs| ==> segs[i].file != segs[j].file
  }

  /** Renaming the first `n` records leaves every later record's file on disk:
      a rename removes only its own source, and a target that happens to be a
      later file replaces it without removing it. */
  lemma {:induction false} FinalizeKeepsPending(fs: FileSystem, segs: seq<SegmentRecord>, prefix: string, session: nat,
                                                category: string, failing: set<nat>, n: nat)
    requires n <= |segs| && DistinctFiles(segs)
    requires forall i :: 0 <= i < |segs| ==> segs[i].file in fs
    ensures forall k :: n <= k < |segs| ==> segs[k].file in FinalizeRun(fs, segs[..n], prefix, session, category, failing).fs
  {
    if n > 0 {
      FinalizeKeepsPending(fs, segs, prefix, session, category, failing, n - 1);
      assert segs[..n][..n - 1] == segs[..n - 1];
    }
  }

  /** Entry i gets ordinal i + 1: when the records name different files that are
      all on disk, every rename the system permits succeeds, so output i is the
      final name of record i with ordinal i + 1. */
  lemma {:induction false} FinalizeRenamed(fs: FileSystem, segs: seq<SegmentRecord>, prefix: string, session: nat,
                                           category: string, failing: set<nat>, i: nat)
    requires i < |segs| && i + 1 !in failing && DistinctFiles(segs)
    requires forall k :: 0 <= k < |segs| ==> segs[k].file in fs
    ensures FinalizeRun(fs, segs, prefix, session, category, failing).finals[i].file
         == FinalName(prefix, session, i + 1, segs[i], category)
  {
    var n := |segs|;
    if i == n - 1 {
      FinalizeKeepsPending(fs, segs, prefix, session, category, failing, n - 1);
    } else {
      var before := segs[..n - 1];
      assert before[i] == segs[i];
      FinalizeRenamed(fs, before, prefix, session, category, failing, i);
    }
  }

  /** The for loop of stop_recording that renames the records and builds the
      list it returns. */
  method FinalizeSegments(fs: FileSystem, segs: seq<SegmentRecord>, prefix: string, session: nat,
                          category: string, failing: set<nat>) returns (fs': FileSystem, finals: seq<FinalSegment>)
    ensures Finalized(fs', finals) == FinalizeRun(fs, segs, prefix, session, category, failing)
    ensures FinalizesAs(finals, segs, prefix, session, category, failing)
  {
    fs', finals := fs, [];
    for idx := 1 to |segs| + 1
      invariant Finalized(fs', finals) == FinalizeRun(fs, segs[..idx - 1], prefix, session, category, failing)
    {
      var seg := segs[idx - 1];
      var name := FinalName(prefix, session, idx, seg, category);
      var rn := Rename(fs', seg.file, name, idx !in failing);
      // "Error renaming video file": the record keeps its previous path
      var file := if rn.ok then name else seg.file;
      fs' := rn.fs;
      finals := finals + [FinalSegment(file, seg.start.clock, seg.end.clock)];
      assert segs[..idx][..idx - 1] == segs[..idx - 1];
    }
    assert segs[..|segs|] == segs;
    FinalizeRunFinalizes(fs, segs, prefix, session, category, failing);
  }

  /** The file system after the camera's successive writes to one file. */
  function WrittenAll(fs: FileSystem, file: Path, written: seq<Option<nat>>): FileSystem
  {
    if written == [] then fs else DeviceWrote(WrittenAll(fs, file, written[..|written| - 1]), file, written[|written| - 1])
  }

  /** The outcome of the inner wait loop of the combined recording. */
  datatype Awaited = Awaited(reached: bool, fs: FileSystem)

  /** The wait loop as a function of the camera's successive writes: the first
      check that finds the video file at the threshold ends it. */
  function Await(fs: FileSystem, video: Path, written: seq<Option<nat>>): (r: Awaited)
    ensures r.reached ==> AtThreshold(r.fs, video)
    decreases |written|
  {
    if written == [] then Awaited(false, fs)
    else
      var next := DeviceWrote(fs, video, written[0]);
      if AtThreshold(next, video) then Awaited(true, next) else Await(next, video, written[1..])
  }

  /** A write that takes the file to the threshold ends the wait, at that check
      or at an earlier one. */
  lemma {:induction false} AwaitReaches(fs: FileSystem, video: Path, written: seq<Option<nat>>, k: nat)
    requires k < |written| && written[k].Some? && written[k].value >= SegmentThreshold
    ensures Await(fs, video, written).reached
    decreases k
  {
    var next := DeviceWrote(fs, video, written[0]);
    if k > 0 && !AtThreshold(next, video) {
      AwaitReaches(next, video, written[1..], k - 1);
    }
  }

  /** The inner loop of the combined recording: poll the video file until it
      reaches the threshold. It leaves the loop early exactly when one of its
      checks found the file at the threshold; otherwise every write happened
      and recording was stopped. Only the video file changes. */
  method AwaitThreshold(fs: FileSystem, video: Path, written: seq<Option<nat>>) returns (reached: bool, fs': FileSystem)
    ensures Awaited(reached, fs') == Await(fs, video, written)
    ensures reached <==> exists k :: 0 < k <= |written| && AtThreshold(WrittenAll(fs, video, written[..k]), video)
    ensures reached ==> AtThreshold(fs', video)
    ensures !reached ==> fs' == WrittenAll(fs, video, written)
    ensures forall p :: p != video ==> (p in fs' <==> p in fs) && (p in fs ==> fs'[p] == fs[p])
  {
    fs' := fs;
    reached := false;
    var i := 0;
    while i < |written| && !reached
      invariant 0 <= i <= |written|
      invariant fs' == WrittenAll(fs, video, written[..i])
      invariant reached ==> i > 0 && AtThreshold(fs', video)
      invariant !reached ==> forall k :: 0 < k <= i ==> !AtThreshold(WrittenAll(fs, video, written[..k]), video)
      invariant forall p :: p != video ==> (p in fs' <==> p in fs) && (p in fs ==> fs'[p] == fs[p])
      invariant Await(fs, video, written) == if reached then Awaited(true, fs') else Await(fs', video, written[i..])
    {
      assert written[i..][1..] == written[i + 1..];
      assert written[..i + 1][..i] == written[..i];
      fs' := DeviceWrote(fs', video, written[i]);
      reached := AtThreshold(fs', video);
      i := i + 1;
    }
    assert written[..|written|] == written;
  }
}
