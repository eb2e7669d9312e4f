/** VideoRecorder: the session state machine of the segmented video recording.

    A session runs in one of two ways. Video-only: start_recording starts the
    camera on a temp file and a monitor thread rotates to a new file each time
    the current one reaches the threshold. Combined: a segmentation thread
    records each segment together with an audio clip and hands the pair to the
    muxer. stop_recording closes the last segment and renames every record of
    the session.

    The threads are run as sequential steps: `MonitorVideoSize` is a stretch of
    the monitor thread's loop, `RecordWithSegmentation` a stretch of the
    segmentation thread's loop, and the join in `StopRecording` runs what the
    thread still does after it sees the stop. */
module Video {
  import opened Common
  import opened Audio
  import opened Segments

  /** Where the segmentation thread is: not running (never started, finished
      or ended by an exception), at the head of its outer loop, or recording a
      segment into `videoFile`. `segStart` is its local seg_start. */
  datatype SegmentationThread =
    | NotRunning
    | AtLoopHead(segStart: Moment)
    | InChunk(videoFile: Path, segStart: Moment)

  /** What happens during one iteration of the segmentation thread, with one
      clock reading per call that reads the clock: the reading that names the
      temp video file, the one that starts the audio clip, whether the audio
      device opens, the reads of the audio thread, the camera's writes seen by
      the inner loop's checks, and, once the threshold is reached, the end of
      the segment, the reading that ends the audio clip, whether the audio
      rename is permitted and how the muxer ends. */
  datatype Chunk = Chunk(
    fileAt: Moment,
    audioAt: Moment,
    audioOpens: bool,
    audioReads: seq<ReadOutcome>,
    written: seq<Option<nat>>,
    end: Moment,
    audioEnd: Moment,
    audioRenamePermitted: bool,
    muxer: MuxerRun)

  /** The tail of one segment of the combined loop as a function of the disk:
      the segment clip is stopped and flushed (SegmentClipFlush), then the video
      and the clip go to the muxer with the session counter and chunk number.
      A failed launch raises; a non-zero exit keeps the raw video; an exit 0
      with both inputs on disk gives the merged file. */
  function ChunkTail(fs: FileSystem, video: Path, segStart: Moment, end: Moment, capture: SegmentCapture,
                     audioEnd: Moment, audioRenamePermitted: bool, session: nat, chunk: nat, run: MuxerRun): (r: MergeResult)
    ensures run.LaunchFails? ==> r.status == Raised(LaunchFailure)
    ensures run.ExitNonZero? ==> r.status == NotMerged
    ensures run.ExitZero? && InFolder(video, "Videos/") && video in fs && (capture.alive || TempSegmentFile in fs) ==>
      r.status == Merged(MergedName(session, chunk, segStart, end, ""))
    ensures r.status.Merged? ==> video !in r.fs
  {
    var f := SegmentClipFlush(fs, capture, audioEnd, audioRenamePermitted);
    TempFilesInAudios();
    FoldersDisjoint(video, TempSegmentFile, "Videos/", "Audios/");
    FoldersDisjoint(video, SegmentClipName(capture.start, audioEnd), "Videos/", "Audios/");
    MergeVideoAudio(f.fs, session, chunk, video, f.clip, segStart, end, None, run)
  }

  /** What the segmentation thread works on: the disk, the session's records,
      chunk_num and where the thread is. */
  datatype Combined = Combined(fs: FileSystem, segments: seq<SegmentRecord>, chunkNum: nat, thread: SegmentationThread)

  /** One iteration of the outer loop of _record_with_segmentation: a new temp
      file and a new segment clip, the wait for the threshold, and, when it is
      reached, the tail, which appends exactly one record (the merged file, or
      the raw video when the muxer returned None) and moves on, or ends the
      thread when an exception escapes. When the threshold is never reached the
      session was stopped and the segment stays open. */
  function ChunkStep(s: Combined, session: nat, c: Chunk): (r: Combined)
    requires s.thread.AtLoopHead?
    ensures |r.segments| >= |s.segments| && r.segments[..|s.segments|] == s.segments
    ensures r.chunkNum - |r.segments| == s.chunkNum - |s.segments|
  {
    var video := VideoTempName(c.fileAt);
    var w := Await(s.fs, video, c.written);
    if !w.reached then Combined(w.fs, s.segments, s.chunkNum, InChunk(video, s.thread.segStart))
    else
      var capture := SegmentCapture(c.audioOpens, if c.audioOpens then Captured(c.audioReads) else [], c.audioAt);
      var m := ChunkTail(w.fs, video, s.thread.segStart, c.end, capture, c.audioEnd, c.audioRenamePermitted,
                         session, s.chunkNum, c.muxer);
      if m.status.Raised? then Combined(m.fs, s.segments, s.chunkNum, NotRunning)
      else
        var file := if m.status.Merged? then m.status.path else video;
        Combined(m.fs, s.segments + [SegmentRecord(file, s.thread.segStart, c.end)], s.chunkNum + 1, AtLoopHead(c.end))
  }

  /** The segmentation thread over a run of iterations, until one of them
      leaves it anywhere but at its loop head. */
  function ChunksRun(s: Combined, session: nat, chunks: seq<Chunk>): (r: Combined)
    ensures |r.segments| >= |s.segments| && r.segments[..|s.segments|] == s.segments
    ensures r.chunkNum - |r.segments| == s.chunkNum - |s.segments|
    decreases |chunks|
  {
    if chunks == [] || !s.thread.AtLoopHead? then s
    else ChunksRun(ChunkStep(s, session, chunks[0]), session, chunks[1..])
  }

  /** The camera's writes take the segment to the threshold at some check. */
  predicate Fills(c: Chunk)
  {
    exists k :: 0 <= k < |c.written| && c.written[k].Some? && c.written[k].value >= SegmentThreshold
  }

  /** Every segment of the run fills up, its audio device opens and its muxer
      runs. */
  predicate AllClose(chunks: seq<Chunk>)
    decreases |chunks|
  {
    chunks == [] || (Fills(chunks[0]) && chunks[0].audioOpens && !chunks[0].muxer.LaunchFails? && AllClose(chunks[1..]))
  }

  /** The record a segment that fills up gets when its audio device opened and
      its muxer ran: the merged file on exit 0, the raw video otherwise. */
  function ClosedRecord(session: nat, chunk: nat, start: Moment, c: Chunk): SegmentRecord
  {
    SegmentRecord(if c.muxer.ExitZero? then MergedName(session, chunk, start, c.end, "") else VideoTempName(c.fileAt),
                  start, c.end)
  }

  /** The records of a run of segments that all fill up: one per segment, in
      order, numbered from `chunk`, each starting where the previous one ended. */
  function ClosedRecords(session: nat, chunk: nat, start: Moment, chunks: seq<Chunk>): (records: seq<SegmentRecord>)
    ensures |records| == |chunks|
    decreases |chunks|
  {
    if chunks == [] then []
    else [ClosedRecord(session, chunk, start, chunks[0])] + ClosedRecords(session, chunk + 1, chunks[0].end, chunks[1..])
  }

  /** A segment that fills up, with an audio clip on disk and a muxer that
      runs, is closed with exactly one record and the loop goes on. */
  lemma ChunkStepCloses(s: Combined, session: nat, c: Chunk)
    requires s.thread.AtLoopHead? && Fills(c) && c.audioOpens && !c.muxer.LaunchFails?
    ensures ChunkStep(s, session, c).segments == s.segments + [ClosedRecord(session, s.chunkNum, s.thread.segStart, c)]
    ensures ChunkStep(s, session, c).chunkNum == s.chunkNum + 1
    ensures ChunkStep(s, session, c).thread == AtLoopHead(c.end)
  {
    var video := VideoTempName(c.fileAt);
    VideoTempNameIsVideo(c.fileAt);
    var k :| 0 <= k < |c.written| && c.written[k].Some? && c.written[k].value >= SegmentThreshold;
    AwaitReaches(s.fs, video, c.written, k);
    var w := Await(s.fs, video, c.written);
    assert video in w.fs;
    var capture := SegmentCapture(c.audioOpens, if c.audioOpens then Captured(c.audioReads) else [], c.audioAt);
    var m := ChunkTail(w.fs, video, s.thread.segStart, c.end, capture, c.audioEnd, c.audioRenamePermitted,
                       session, s.chunkNum, c.muxer);
    assert m.status == if c.muxer.ExitZero? then Merged(MergedName(session, s.chunkNum, s.thread.segStart, c.end, "")) else NotMerged;
  }

  /** `records` followed by the records of a run of segments that all fill up,
      built one segment at a time as the thread appends them. */
  function ClosedAfter(records: seq<SegmentRecord>, session: nat, chunk: nat, start: Moment, chunks: seq<Chunk>): seq<SegmentRecord>
    decreases |chunks|
  {
    if chunks == [] then records
    else ClosedAfter(records + [ClosedRecord(session, chunk, start, chunks[0])], session, chunk + 1, chunks[0].end, chunks[1..])
  }

  /** Appending the records one at a time gives the same records as
      ClosedRecords after the ones already there. */
  lemma {:induction false} ClosedAfterAppends(records: seq<SegmentRecord>, session: nat, chunk: nat, start: Moment, chunks: seq<Chunk>)
    ensures ClosedAfter(records, session, chunk, start, chunks) == records + ClosedRecords(session, chunk, start, chunks)
    decreases |chunks|
  {
    if chunks == [] {
      AppendEmpty(records);
    } else {
      var first := ClosedRecord(session, chunk, start, chunks[0]);
      ClosedAfterAppends(records + [first], session, chunk + 1, chunks[0].end, chunks[1..]);
      AppendOneAssoc(records, first, ClosedRecords(session, chunk + 1, chunks[0].end, chunks[1..]),
                     ClosedAfter(records, session, chunk, start, chunks));
    }
  }

  lemma AppendEmpty<T>(a: seq<T>)
    ensures a + [] == a
  {
  }

  lemma AppendOneAssoc<T>(a: seq<T>, x: T, tail: seq<T>, built: seq<T>)
    requires built == (a + [x]) + tail
    ensures built == a + ([x] + tail)
  {
  }

  /** The segmentation thread's records after a run of segments that all fill
      up, one segment at a time. */
  lemma {:induction false} ChunksRunClosedAfter(s: Combined, session: nat, chunks: seq<Chunk>)
    requires s.thread.AtLoopHead?
    requires AllClose(chunks)
    ensures ChunksRun(s, session, chunks).segments == ClosedAfter(s.segments, session, s.chunkNum, s.thread.segStart, chunks)
    ensures ChunksRun(s, session, chunks).chunkNum == s.chunkNum + |chunks|
    decreases |chunks|
  {
    if chunks != [] {
      var s1 := ChunkStep(s, session, chunks[0]);
      ChunkStepCloses(s, session, chunks[0]);
      ChunksRunClosedAfter(s1, session, chunks[1..]);
    }
  }

  /** N segments that fill up give N records: each closes with exactly one
      record (ClosedRecords), and chunk_num counts them. */
  lemma ChunksEveryChunkCloses(s: Combined, session: nat, chunks: seq<Chunk>)
    requires s.thread.AtLoopHead?
    requires AllClose(chunks)
    ensures ChunksRun(s, session, chunks).segments == s.segments + ClosedRecords(session, s.chunkNum, s.thread.segStart, chunks)
    ensures ChunksRun(s, session, chunks).chunkNum == s.chunkNum + |chunks|
  {
    ChunksRunClosedAfter(s, session, chunks);
    ClosedAfterAppends(s.segments, session, s.chunkNum, s.thread.segStart, chunks);
  }

  /** Where a run of segments ends when each starts at the previous one's end. */
  function LastEnd(start: Moment, chunks: seq<Chunk>): Moment
    decreases |chunks|
  {
    if chunks == [] then start else LastEnd(chunks[0].end, chunks[1..])
  }

  lemma {:induction false} LastEndIsLast(start: Moment, chunks: seq<Chunk>)
    ensures LastEnd(start, chunks) == if chunks == [] then start else chunks[|chunks| - 1].end
    decreases |chunks|
  {
    if chunks != [] {
      var rest := chunks[1..];
      LastEndIsLast(chunks[0].end, rest);
      if rest != [] {
        assert rest[|rest| - 1] == chunks[|chunks| - 1];
      }
    }
  }

  lemma {:induction false} ChunksReachLastEnd(s: Combined, session: nat, chunks: seq<Chunk>)
    requires s.thread.AtLoopHead?
    requires AllClose(chunks)
    ensures ChunksRun(s, session, chunks).thread == AtLoopHead(LastEnd(s.thread.segStart, chunks))
    decreases |chunks|
  {
    if chunks != [] {
      ChunkStepCloses(s, session, chunks[0]);
      ChunksReachLastEnd(ChunkStep(s, session, chunks[0]), session, chunks[1..]);
    }
  }

  /** After N segments that fill up, the thread is back at its loop head, with
      seg_start the end of the last segment. */
  lemma ChunksEndAtLoopHead(s: Combined, session: nat, chunks: seq<Chunk>)
    requires s.thread.AtLoopHead?
    requires AllClose(chunks)
    ensures ChunksRun(s, session, chunks).thread
         == AtLoopHead(if chunks == [] then s.thread.segStart else chunks[|chunks| - 1].end)
  {
    ChunksReachLastEnd(s, session, chunks);
    LastEndIsLast(s.thread.segStart, chunks);
  }

  class VideoRecorder {
    const audio: AudioRecorder?
    var recording: bool
    /** The record indicator LED. */
    var recordLed: bool
    var withAudio: bool
    var segments: seq<SegmentRecord>
    var currentVideoFile: Option<Path>
    var currentSegmentStart: Option<Moment>
    var stopMonitor: bool
    /** The monitor thread is alive. */
    var monitorRunning: bool
    var sessionCounter: nat
    var chunkNum: nat
    /** segmentation_thread is not None. */
    var segmentationStarted: bool
    var segmentation: SegmentationThread
    /** The file the camera records to; None while it is not recording. */
    var cameraOutput: Option<Path>
    /** When the running session started. */
    ghost var sessionStart: Moment

    ghost predicate Valid()
      reads this, audio
    {
      && (audio != null ==> audio.Valid())
      && sessionCounter >= 1
      && chunkNum >= 1
      && (!recording ==> chunkNum == 1)
      && (currentVideoFile.Some? ==> currentSegmentStart.Some?)
      && (segmentationStarted ==> audio != null)
      && (monitorRunning ==> !(withAudio && audio != null))
      && (monitorRunning ==>
            && recording && !stopMonitor && currentVideoFile.Some?
            && cameraOutput == currentVideoFile
            && segmentation.NotRunning?
            && Contiguous(sessionStart, segments, currentSegmentStart.value))
      && (!segmentation.NotRunning? ==>
            && recording && withAudio && audio != null && segmentationStarted
            && !monitorRunning
            && Contiguous(sessionStart, segments, segmentation.segStart)
            && chunkNum == |segments| + 1)
      && (segmentation.InChunk? ==> cameraOutput == None || cameraOutput == Some(segmentation.videoFile))
      && (segmentation.InChunk? ==> InFolder(segmentation.videoFile, "Videos/") && audio.segmentStartTime.Some?)
    }

    /** The state the segmentation thread works on. */
    ghost function Thread(fs: FileSystem): Combined
      reads this
    {
      Combined(fs, segments, chunkNum, segmentation)
    }

    constructor (audio: AudioRecorder?)
      requires audio != null ==> audio.Valid()
      ensures Valid()
      ensures this.audio == audio
      ensures !recording && !recordLed && !withAudio && segments == []
      ensures currentVideoFile == None && currentSegmentStart == None
      ensures !monitorRunning && !segmentationStarted && segmentation == NotRunning
      ensures sessionCounter == 1 && chunkNum == 1
    {
      this.audio := audio;
      recording := false;
      recordLed := false;
      withAudio := false;
      segments := [];
      currentVideoFile := None;
      currentSegmentStart := None;
      stopMonitor := false;
      monitorRunning := false;
      sessionCounter := 1;
      chunkNum := 1;
      segmentationStarted := false;
      segmentation := NotRunning;
      cameraOutput := None;
      sessionStart := Moment("", "", "");
    }

    /** start_recording: does nothing while a session is recording. Otherwise it
        sets `recording`, turns the LED on, records `with_audio`, empties
        `segments` and notes the start `at`; then it starts the segmentation
        thread when there is audio and an audio recorder, and otherwise starts
        the camera on a new temp file, named after the later reading `fileAt`,
        and the monitor thread. */
    method StartRecording(withAudio: bool, at: Moment, fileAt: Moment)
      requires Valid()
      modifies this
      ensures Valid()
      ensures old(recording) ==> unchanged(this)
      ensures !old(recording) ==>
        && recording && recordLed
        && this.withAudio == withAudio
        && segments == []
        && currentSegmentStart == Some(at)
        && sessionCounter == old(sessionCounter) && chunkNum == old(chunkNum) == 1
      ensures !old(recording) && withAudio && audio != null ==>
        && segmentationStarted && segmentation == AtLoopHead(at)
        && !monitorRunning
        && currentVideoFile == old(currentVideoFile) && cameraOutput == old(cameraOutput)
      ensures !old(recording) && !(withAudio && audio != null) ==>
        && currentVideoFile == Some(VideoTempName(fileAt)) && cameraOutput == currentVideoFile
        && monitorRunning && !stopMonitor
        && segmentation == NotRunning && segmentationStarted == old(segmentationStarted)
    {
      if recording {
        return;
      }
      OpenSession(withAudio, at);
      if withAudio && audio != null {
        segmentationStarted := true;
        segmentation := AtLoopHead(at);
      } else {
        StartMonitor(at, fileAt);
      }
    }

    /** The common head of start_recording once it knows no session runs. */
    method OpenSession(withAudio: bool, at: Moment)
      requires Valid() && !recording
      modifies this`recording, this`recordLed, this`withAudio, this`segments, this`currentSegmentStart, this`sessionStart
      ensures Valid() && !monitorRunning && segmentation == NotRunning
      ensures recording && recordLed && this.withAudio == withAudio
      ensures segments == [] && currentSegmentStart == Some(at) && sessionStart == at
    {
      recording := true;
      recordLed := true;
      this.withAudio := withAudio;
      segments := [];
      currentSegmentStart := Some(at);
      sessionStart := at;
    }

    /** Video-only mode: the camera records to a temp file named after the
        clock reading `fileAt` and the monitor thread runs. */
    method StartMonitor(at: Moment, fileAt: Moment)
      requires Valid() && recording && !(withAudio && audio != null)
      requires !monitorRunning && segmentation == NotRunning
      requires segments == [] && currentSegmentStart == Some(at) && sessionStart == at
      modifies this`currentVideoFile, this`cameraOutput, this`stopMonitor, this`monitorRunning
      ensures Valid()
      ensures currentVideoFile == Some(VideoTempName(fileAt)) && cameraOutput == currentVideoFile
      ensures monitorRunning && !stopMonitor
    {
      currentVideoFile := Some(VideoTempName(fileAt));
      cameraOutput := currentVideoFile;
      stopMonitor := false;
      monitorRunning := true;
    }

    /** The monitor thread's loop over a run of polls: each poll is one
        PollStep, so the session's records, the current file and its start
        follow MonitorRun. Outside a video-only session nothing happens. */
    method MonitorVideoSize(polls: seq<Poll>, fs: FileSystem) returns (fs': FileSystem)
      requires Valid()
      modifies this`segments, this`currentVideoFile, this`currentSegmentStart, this`cameraOutput
      ensures Valid()
      ensures old(monitorRunning) ==>
        var r := MonitorRun(Monitor(fs, old(segments), old(currentVideoFile).value, old(currentSegmentStart).value), polls);
        && fs' == r.fs
        && segments == r.segments
        && currentVideoFile == Some(r.current) && currentSegmentStart == Some(r.start)
        && cameraOutput == currentVideoFile
      ensures !old(monitorRunning) ==> fs' == fs && unchanged(this)
    {
      fs' := fs;
      if !monitorRunning {
        return;
      }
      ghost var m0 := Monitor(fs, segments, currentVideoFile.value, currentSegmentStart.value);
      var i := 0;
      while i < |polls| && recording && !stopMonitor
        invariant 0 <= i <= |polls|
        invariant Valid() && monitorRunning
        invariant Monitor(fs', segments, currentVideoFile.value, currentSegmentStart.value) == MonitorRun(m0, polls[..i])
      {
        assert polls[..i + 1][..i] == polls[..i];
        var cur := currentVideoFile.value;
        fs' := DeviceWrote(fs', cur, polls[i].written);
        if AtThreshold(fs', cur) {
          Rotate(polls[i].at, polls[i].fileAt);
        }
        i := i + 1;
      }
      assert polls[..|polls|] == polls;
    }

    /** One rotation of the monitor: the current file becomes a record ending
        at `segmentEnd`, and the camera goes on in a new temp file named after
        the reading `fileAt` taken once the camera was stopped. */
    method Rotate(segmentEnd: Moment, fileAt: Moment)
      requires Valid() && monitorRunning
      modifies this`segments, this`currentVideoFile, this`currentSegmentStart, this`cameraOutput
      ensures Valid() && monitorRunning
      ensures segments == old(segments) + [SegmentRecord(old(currentVideoFile).value, old(currentSegmentStart).value, segmentEnd)]
      ensures currentSegmentStart == Some(segmentEnd)
      ensures currentVideoFile == Some(VideoTempName(fileAt)) && cameraOutput == currentVideoFile
    {
      var cur := currentVideoFile.value;
      cameraOutput := None;
      ContiguousExtend(sessionStart, segments, currentSegmentStart.value, cur, segmentEnd);
      segments := segments + [SegmentRecord(cur, currentSegmentStart.value, segmentEnd)];
      currentSegmentStart := Some(segmentEnd);
      currentVideoFile := Some(VideoTempName(fileAt));
      cameraOutput := currentVideoFile;
    }

    /** Head of one iteration of the segmentation thread: a new temp file named
        after `fileAt`, the camera recording to it, and a new segmented audio
        capture started at `audioAt` with an empty buffer. The plain audio
        capture is not touched. */
    method OpenChunk(fileAt: Moment, audioAt: Moment, audioOpens: bool)
      requires Valid() && segmentation.AtLoopHead?
      modifies this`cameraOutput, this`segmentation, audio
      ensures Valid()
      ensures segmentation == InChunk(VideoTempName(fileAt), old(segmentation).segStart)
      ensures cameraOutput == Some(VideoTempName(fileAt))
      ensures audio.segmentStartTime == Some(audioAt) && audio.SegmentState() == SegmentCapture(audioOpens, [], audioAt)
      ensures audio != null ==> audio.CaptureState() == old(audio.CaptureState())
    {
      var videoFile := VideoTempName(fileAt);
      cameraOutput := Some(videoFile);
      audio.StartSegmentedRecording(audioAt, audioOpens);
      segmentation := InChunk(videoFile, segmentation.segStart);
    }

    /** The audio thread's reads while the segment records: they go to the
        segment buffer only if the device opened. */
    method CaptureChunkAudio(outcomes: seq<ReadOutcome>)
      requires Valid() && segmentation.InChunk?
      modifies audio`segmentFrames
      ensures Valid()
      ensures var c := old(audio.SegmentState());
        audio.SegmentState() == SegmentCapture(c.alive, if c.alive then c.frames + Captured(outcomes) else c.frames, c.start)
    {
      audio.CaptureSegmentFrames(outcomes);
    }

    /** Tail of one iteration of the segmentation thread: stop the camera and the
        audio clip, merge the pair, and append exactly one record, the merged
        file if the merge returned a path and the raw video file otherwise; then
        chunk_num goes up by one and the next segment starts where this one
        ended. An exception (a muxer that cannot be launched, an input that is
        gone) ends the thread and appends nothing. The segment ends at `end`
        and its audio clip at the later reading `audioEnd`. */
    method CloseChunk(end: Moment, audioEnd: Moment, audioRenamePermitted: bool, run: MuxerRun, fs: FileSystem)
      returns (status: MergeStatus, fs': FileSystem)
      requires Valid() && segmentation.InChunk?
      modifies this`cameraOutput, this`segments, this`chunkNum, this`segmentation, audio
      ensures Valid()
      ensures cameraOutput == None
      ensures MergeResult(status, fs') == ChunkTail(fs, old(segmentation).videoFile, old(segmentation).segStart, end,
                                                     old(audio.SegmentState()), audioEnd, audioRenamePermitted,
                                                     old(sessionCounter), old(chunkNum), run)
      ensures status.Raised? ==> segmentation == NotRunning && segments == old(segments) && chunkNum == old(chunkNum)
      ensures !status.Raised? ==>
        && segments == old(segments) + [SegmentRecord(if status.Merged? then status.path else old(segmentation).videoFile,
                                                      old(segmentation).segStart, end)]
        && chunkNum == old(chunkNum) + 1
        && segmentation == AtLoopHead(end)
      ensures status.Merged? ==>
        && status.path == MergedName(old(sessionCounter), old(chunkNum), old(segmentation).segStart, end, "")
        && old(segmentation).videoFile !in fs'
      ensures run.LaunchFails? ==> status.Raised?
      ensures run.ExitNonZero? ==> status == NotMerged
      ensures run.ExitZero? && old(segmentation).videoFile in fs && (old(audio.segmentAlive) || TempSegmentFile in fs) ==>
        status.Merged?
      ensures status.Merged? ==> run.ExitZero?
      ensures audio != null ==> audio.CaptureState() == old(audio.CaptureState())
    {
      var videoFile := segmentation.videoFile;
      var segStart := segmentation.segStart;
      cameraOutput := None;
      // Valid: the clip was started with this segment, so formatting its start
      // time cannot raise
      var audioFile;
      audioFile, fs' := audio.StopSegmentedRecording(audioEnd, audioRenamePermitted, fs);
      var merge := MergeVideoAudio(fs', sessionCounter, chunkNum, videoFile, audioFile.value, segStart, end, None, run);
      fs' := merge.fs;
      status := merge.status;
      if status.Raised? {
        // the exception escapes _record_with_segmentation and ends the thread
        segmentation := NotRunning;
        return;
      }
      AppendChunk(if status.Merged? then status.path else videoFile, end);
    }

    /** Appends the record of the segment that just closed, counts the chunk and
        starts the next segment where this one ended. */
    method AppendChunk(file: Path, end: Moment)
      requires Valid() && segmentation.InChunk? && cameraOutput == None
      modifies this`segments, this`chunkNum, this`segmentation
      ensures Valid()
      ensures segments == old(segments) + [SegmentRecord(file, old(segmentation).segStart, end)]
      ensures chunkNum == old(chunkNum) + 1
      ensures segmentation == AtLoopHead(end)
    {
      ContiguousExtend(sessionStart, segments, segmentation.segStart, file, end);
      segments := segments + [SegmentRecord(file, segmentation.segStart, end)];
      chunkNum := chunkNum + 1;
      segmentation := AtLoopHead(end);
    }

    /** One iteration of the segmentation thread's outer loop, as ChunkStep
        describes it. */
    method RunChunk(c: Chunk, fs: FileSystem) returns (fs': FileSystem)
      requires Valid() && segmentation.AtLoopHead?
      modifies this`cameraOutput, this`segments, this`chunkNum, this`segmentation, audio
      ensures Valid()
      ensures Thread(fs') == ChunkStep(old(Thread(fs)), sessionCounter, c)
      ensures audio != null ==> audio.CaptureState() == old(audio.CaptureState())
    {
      ghost var s := Thread(fs);
      OpenChunk(c.fileAt, c.audioAt, c.audioOpens);
      CaptureChunkAudio(c.audioReads);
      ghost var capture := SegmentCapture(c.audioOpens, if c.audioOpens then Captured(c.audioReads) else [], c.audioAt);
      assert audio.SegmentState() == capture;
      var reached;
      reached, fs' := AwaitThreshold(fs, segmentation.videoFile, c.written);
      if reached {
        ghost var filled := fs';
        var status;
        status, fs' := CloseChunk(c.end, c.audioEnd, c.audioRenamePermitted, c.muxer, fs');
        assert MergeResult(status, fs') == ChunkTail(filled, VideoTempName(c.fileAt), s.thread.segStart, c.end, capture,
                                                     c.audioEnd, c.audioRenamePermitted, sessionCounter, s.chunkNum, c.muxer);
      }
    }

    /** The segmentation thread's outer loop over the segments it records while
        the session goes on, as ChunksRun describes it: each iteration whose
        checks find the threshold closes its segment and appends exactly one
        record (ChunksEveryChunkCloses); an iteration whose checks never do is
        the one still recording when the session is stopped, and it stays open
        for StopRecording to close. The records stay a chain from the session
        start, and chunk_num stays one past their number. */
    method RecordWithSegmentation(chunks: seq<Chunk>, fs: FileSystem) returns (fs': FileSystem)
      requires Valid()
      modifies this`cameraOutput, this`segments, this`chunkNum, this`segmentation, audio
      ensures Valid()
      ensures old(segmentation).AtLoopHead? ==> Thread(fs') == ChunksRun(old(Thread(fs)), sessionCounter, chunks)
      ensures |segments| >= old(|segments|) && segments[..old(|segments|)] == old(segments)
      ensures chunkNum - |segments| == old(chunkNum) - old(|segments|)
      ensures !old(segmentation).AtLoopHead? ==> Thread(fs') == old(Thread(fs))
      ensures audio != null ==> audio.CaptureState() == old(audio.CaptureState())
    {
      fs' := fs;
      if !segmentation.AtLoopHead? {
        return;
      }
      var i := 0;
      while i < |chunks| && segmentation.AtLoopHead? && recording
        invariant 0 <= i <= |chunks|
        invariant Valid()
        invariant ChunksRun(Thread(fs'), sessionCounter, chunks[i..]) == ChunksRun(old(Thread(fs)), sessionCounter, chunks)
        invariant audio != null ==> audio.CaptureState() == old(audio.CaptureState())
      {
        assert chunks[i..][1..] == chunks[i + 1..];
        fs' := RunChunk(chunks[i], fs');
        i := i + 1;
      }
    }

    /** The part of stop_recording that closes the open segment. In combined
        mode the join lets the segmentation thread finish the segment it is
        recording (`closed` is the outcome of its merge, as in CloseChunk, with
        the segment ending at `at` and its clip at `audioEnd`) and leave its
        loop; otherwise the monitor is stopped and, if a video file was ever
        started, a record for it is appended, ending at `at`. */
    method CloseOnStop(at: Moment, audioEnd: Moment, audioRenamePermitted: bool, run: MuxerRun, fs: FileSystem)
      returns (closed: Option<MergeStatus>, fs': FileSystem)
      requires Valid()
      modifies this`segments, this`chunkNum, this`segmentation, this`cameraOutput, this`stopMonitor, this`monitorRunning, audio
      ensures Valid()
      ensures !monitorRunning && segmentation == NotRunning && cameraOutput == None
      ensures closed.Some? <==> old(segmentation).InChunk?
      ensures closed.Some? ==>
        MergeResult(closed.value, fs') == ChunkTail(fs, old(segmentation).videoFile, old(segmentation).segStart, at,
                                                    old(audio.SegmentState()), audioEnd, audioRenamePermitted,
                                                    old(sessionCounter), old(chunkNum), run)
      ensures closed.Some? && !closed.value.Raised? ==>
        segments == old(segments) + [SegmentRecord(if closed.value.Merged? then closed.value.path else old(segmentation).videoFile,
                                                   old(segmentation).segStart, at)]
      ensures closed.Some? && closed.value.Raised? ==> segments == old(segments)
      ensures closed.None? ==> fs' == fs
      ensures !(old(withAudio) && old(segmentationStarted)) ==>
        segments == old(segments) + (if old(currentVideoFile).Some?
                                     then [SegmentRecord(old(currentVideoFile).value, old(currentSegmentStart).value, at)]
                                     else [])
      ensures old(withAudio) && old(segmentationStarted) && !old(segmentation).InChunk? ==> segments == old(segments)
      ensures old(monitorRunning) ==> Contiguous(old(sessionStart), segments, at)
      ensures old(segmentation).InChunk? && |segments| == old(|segments|) + 1 ==> Contiguous(old(sessionStart), segments, at)
      ensures !old(segmentation).NotRunning? && |segments| == old(|segments|) ==>
        Contiguous(old(sessionStart), segments, old(segmentation).segStart)
      ensures audio != null ==> audio.CaptureState() == old(audio.CaptureState())
    {
      fs' := fs;
      closed := None;
      if withAudio && segmentationStarted {
        if segmentation.InChunk? {
          var status;
          status, fs' := CloseChunk(at, audioEnd, audioRenamePermitted, run, fs');
          closed := Some(status);
        }
        segmentation := NotRunning;
        cameraOutput := None;
      } else {
        stopMonitor := true;
        monitorRunning := false;
        if currentVideoFile.Some? {
          cameraOutput := None;
          if old(monitorRunning) {
            ContiguousExtend(sessionStart, segments, currentSegmentStart.value, currentVideoFile.value, at);
          }
          segments := segments + [SegmentRecord(currentVideoFile.value, currentSegmentStart.value, at)];
        }
        // picam2.start(): the camera goes back to preview
        cameraOutput := None;
      }
    }

    /** stop_recording. There is no idle guard: it always clears `recording`,
        turns the LED off, closes whatever segment is open, restarts the camera,
        renames every record in `segments` (FinalizeRun on the disk the join
        left, `joined`: one output per record, in order, record i offered
        ordinal i + 1 and the prefix of the session's mode, a refused rename
        keeping the old path, start and end copied) and finally increments
        `session_counter` and resets `chunk_num`. `closed` is the outcome of the
        merge of a combined segment the join closed. */
    method StopRecording(category: string, at: Moment, audioEnd: Moment, audioRenamePermitted: bool, run: MuxerRun,
                         failing: set<nat>, fs: FileSystem)
      returns (finals: seq<FinalSegment>, fs': FileSystem, ghost closed: Option<MergeStatus>, ghost joined: FileSystem)
      requires Valid()
      modifies this`recording, this`recordLed, this`sessionCounter, this`chunkNum
      modifies this`segments, this`segmentation, this`cameraOutput, this`stopMonitor, this`monitorRunning, audio
      ensures Valid()
      ensures !recording && !recordLed && !monitorRunning && segmentation == NotRunning && cameraOutput == None
      ensures sessionCounter == old(sessionCounter) + 1 && chunkNum == 1
      ensures closed.Some? <==> old(segmentation).InChunk?
      ensures closed.Some? ==>
        MergeResult(closed.value, joined) == ChunkTail(fs, old(segmentation).videoFile, old(segmentation).segStart, at,
                                                       old(audio.SegmentState()), audioEnd, audioRenamePermitted,
                                                       old(sessionCounter), old(chunkNum), run)
      ensures closed.Some? && !closed.value.Raised? ==>
        segments == old(segments) + [SegmentRecord(if closed.value.Merged? then closed.value.path else old(segmentation).videoFile,
                                                   old(segmentation).segStart, at)]
      ensures closed.Some? && closed.value.Raised? ==> segments == old(segments)
      ensures closed.None? ==> joined == fs
      ensures !(old(withAudio) && old(segmentationStarted)) ==>
        segments == old(segments) + (if old(currentVideoFile).Some?
                                     then [SegmentRecord(old(currentVideoFile).value, old(currentSegmentStart).value, at)]
                                     else [])
      ensures old(withAudio) && old(segmentationStarted) && !old(segmentation).InChunk? ==> segments == old(segments)
      ensures old(monitorRunning) ==> Contiguous(old(sessionStart), segments, at)
      ensures old(segmentation).InChunk? && |segments| == old(|segments|) + 1 ==> Contiguous(old(sessionStart), segments, at)
      ensures Finalized(fs', finals) == FinalizeRun(joined, segments, Prefix(withAudio), old(sessionCounter), category, failing)
      ensures FinalizesAs(finals, segments, Prefix(withAudio), old(sessionCounter), category, failing)
      ensures audio != null ==> audio.CaptureState() == old(audio.CaptureState())
    {
      // The source clears `recording` first so that the threads stop; the work
      // the joined threads still do is CloseOnStop.
      var status, disk := CloseOnStop(at, audioEnd, audioRenamePermitted, run, fs);
      closed, joined := status, disk;
      finals, fs' := EndSession(category, failing, disk);
    }

    /** The rest of stop_recording once nothing records any more: `recording`
        and the LED off, every record renamed, the session counted and
        chunk_num reset. */
    method EndSession(category: string, failing: set<nat>, fs: FileSystem) returns (finals: seq<FinalSegment>, fs': FileSystem)
      requires Valid() && !monitorRunning && segmentation == NotRunning
      modifies this`recording, this`recordLed, this`sessionCounter, this`chunkNum
      ensures Valid()
      ensures !recording && !recordLed
      ensures sessionCounter == old(sessionCounter) + 1 && chunkNum == 1
      ensures Finalized(fs', finals) == FinalizeRun(fs, segments, Prefix(withAudio), old(sessionCounter), category, failing)
      ensures FinalizesAs(finals, segments, Prefix(withAudio), old(sessionCounter), category, failing)
    {
      recording := false;
      recordLed := false;
      fs', finals := FinalizeSegments(fs, segments, Prefix(withAudio), sessionCounter, category, failing);
      sessionCounter := sessionCounter + 1;
      chunkNum := 1;
    }
  }
}
