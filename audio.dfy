/** AudioRecorder: a capture thread that accumulates frames read from the audio
    input, flushes them to a temp WAV file when stopped, and renames the file to
    its final name. The segmented variant does the same for the clips that the
    combined video loop pairs with each video segment.

    The thread is run as sequential steps: the device is opened when the thread
    starts, `CaptureFrames` performs reads of its loop, and the join in the stop
    methods runs the flush that follows the loop. */
module Audio {
  import opened Common

  /** Size of the header the wave module writes before the PCM data. The
      stream's rate, channel count and sample width only fill in that header. */
  const WavHeaderSize: nat := 44

  const TempAudioFile: Path := "Audios/temp_audio.wav"
  const TempSegmentFile: Path := "Audios/temp_seg_audio.wav"

  /** Both temp files live in the Audios folder. */
  lemma TempFilesInAudios()
    ensures InFolder(TempAudioFile, "Audios/") && InFolder(TempSegmentFile, "Audios/")
  {
  }

  /** The bytes one successful stream.read returned. */
  type Frame = seq<bv8>

  datatype ReadOutcome = Data(frame: Frame) | ReadError

  /** The frames a run of reads contributes: every successful read in order,
      nothing for a read that raised. */
  function Captured(outcomes: seq<ReadOutcome>): (frames: seq<Frame>)
    ensures |frames| <= |outcomes|
  {
    if outcomes == [] then []
    else
      var last := outcomes[|outcomes| - 1];
      Captured(outcomes[..|outcomes| - 1]) + (if last.Data? then [last.frame] else [])
  }

  /** Capturing two runs of reads one after the other buffers what capturing
      each buffers, in order. */
  lemma {:induction false} CapturedAppend(a: seq<ReadOutcome>, b: seq<ReadOutcome>)
    ensures Captured(a + b) == Captured(a) + Captured(b)
    decreases |b|
  {
    if b == [] {
      assert a + b == a;
    } else {
      var ab := a + b;
      assert ab[..|ab| - 1] == a + b[..|b| - 1];
      CapturedAppend(a, b[..|b| - 1]);
    }
  }

  /** A read error never adds to the buffer: reads that all fail capture nothing. */
  lemma {:induction false} CapturedOnlyErrors(outcomes: seq<ReadOutcome>)
    requires forall i :: 0 <= i < |outcomes| ==> outcomes[i].ReadError?
    ensures Captured(outcomes) == []
  {
    if outcomes != [] {
      CapturedOnlyErrors(outcomes[..|outcomes| - 1]);
    }
  }

  /** Every successful read is kept: the buffer holds one frame per successful read. */
  lemma {:induction false} CapturedCount(outcomes: seq<ReadOutcome>)
    ensures |Captured(outcomes)| == |set i | 0 <= i < |outcomes| && outcomes[i].Data?|
  {
    if outcomes != [] {
      var n := |outcomes| - 1;
      CapturedCount(outcomes[..n]);
      var before := set i | 0 <= i < n && outcomes[..n][i].Data?;
      var all := set i | 0 <= i < |outcomes| && outcomes[i].Data?;
      assert before == set i | 0 <= i < n && outcomes[i].Data?;
      if outcomes[n].Data? {
        assert all == before + {n};
      } else {
        assert all == before;
      }
    }
  }

  /** The capture loop: keep reading; a read that raises is logged and skipped,
      every other read appends its data to the buffer. */
  method ReadFrames(buffer: seq<Frame>, outcomes: seq<ReadOutcome>) returns (frames: seq<Frame>)
    ensures frames == buffer + Captured(outcomes)
  {
    frames := buffer;
    var i := 0;
    while i < |outcomes|
      invariant 0 <= i <= |outcomes|
      invariant frames == buffer + Captured(outcomes[..i])
    {
      assert outcomes[..i + 1][..i] == outcomes[..i];
      match outcomes[i] {
        case Data(f) =>
          frames := frames + [f];
        case ReadError =>
          // "Audio error" is printed and the loop goes on with the next read
      }
      i := i + 1;
    }
    assert outcomes[..|outcomes|] == outcomes;
  }

  /** b''.join(frames): the buffered bytes, frame after frame. */
  function Joined(frames: seq<Frame>): seq<bv8>
  {
    if frames == [] then [] else Joined(frames[..|frames| - 1]) + frames[|frames| - 1]
  }

  /** The number of buffered bytes, counted frame by frame. */
  function ByteCount(frames: seq<Frame>): (n: nat)
    ensures n == |Joined(frames)|
  {
    if frames == [] then 0 else ByteCount(frames[..|frames| - 1]) + |frames[|frames| - 1]|
  }

  /** Size of the WAV file the flush writes: the header, then every buffered
      byte joined in order. */
  function WavFileSize(frames: seq<Frame>): (size: nat)
    ensures size == WavHeaderSize + |Joined(frames)|
  {
    WavHeaderSize + ByteCount(frames)
  }

  /** Final name of an audio clip: audio_{counter}_{start}_to_{end}_{category}.wav. */
  function ClipName(counter: nat, start: Moment, end: Moment, category: string): Path
  {
    "Audios/audio_" + DecimalString(counter) + "_" + Stamp(start) + "_to_" + Stamp(end) + "_" + category + ".wav"
  }

  /** A final clip name is a .wav file in Audios/. */
  lemma ClipNameIsWav(counter: nat, start: Moment, end: Moment, category: string)
    ensures var p := ClipName(counter, start, end, category); InFolder(p, "Audios/") && HasExtension(p, ".wav")
  {
  }

  /** Final name of a segment's audio: audio_seg_{start}_to_{end}.wav. */
  function SegmentClipName(start: Moment, end: Moment): Path
  {
    "Audios/audio_seg_" + Stamp(start) + "_to_" + Stamp(end) + ".wav"
  }

  /** A segment clip name is a .wav file in Audios/. */
  lemma SegmentClipNameIsWav(start: Moment, end: Moment)
    ensures var p := SegmentClipName(start, end); InFolder(p, "Audios/") && HasExtension(p, ".wav")
  {
  }

  /** A final clip name is never the temp file it is renamed from. */
  lemma ClipNameNotTemp(counter: nat, start: Moment, end: Moment, category: string)
    ensures ClipName(counter, start, end, category) != TempAudioFile
  {
  }

  lemma SegmentClipNameNotTemp(start: Moment, end: Moment)
    ensures SegmentClipName(start, end) != TempSegmentFile
  {
  }

  /** What stop_recording returns: the clip's path and its start and end clock times. */
  datatype Clip = Clip(file: Path, start: string, end: string)

  /** The segmented capture as stop_segmented_recording finds it: whether its
      thread is alive, the frames that thread buffered and when the clip
      started. */
  datatype SegmentCapture = SegmentCapture(alive: bool, frames: seq<Frame>, start: Moment)

  /** The clip path and the disk after stop_segmented_recording. */
  datatype Flushed = Flushed(clip: Path, fs: FileSystem)

  /** What the join and the rename of stop_segmented_recording do to the disk: a
      live thread writes its buffer to the temp file, which is then renamed to
      the clip name; the clip is that name, or the temp path if the rename
      failed. The clip is on disk whenever the temp file was, and no file
      outside the two audio paths changes. */
  function SegmentClipFlush(fs: FileSystem, c: SegmentCapture, end: Moment, permitted: bool): (r: Flushed)
    ensures c.alive || TempSegmentFile in fs ==> r.clip in r.fs
    ensures r.clip == SegmentClipName(c.start, end) || r.clip == TempSegmentFile
    ensures forall p :: p != TempSegmentFile && p != SegmentClipName(c.start, end) ==>
      (p in r.fs <==> p in fs) && (p in fs ==> r.fs[p] == fs[p])
  {
    var flushed := if c.alive then fs[TempSegmentFile := WavFileSize(c.frames)] else fs;
    var name := SegmentClipName(c.start, end);
    var rn := Rename(flushed, TempSegmentFile, name, permitted);
    Flushed(if rn.ok then name else TempSegmentFile, rn.fs)
  }

  class AudioRecorder {
    /** audio_thread exists and is alive: the device is open and being read. */
    var captureAlive: bool
    /** The `frames` list of the live capture thread. */
    var frames: seq<Frame>
    var recordingStartTime: Option<Moment>
    var audioCounter: nat
    /** The audio indicator LED. */
    var audioLed: bool

    /** The same, for the segmented capture thread. */
    var segmentAlive: bool
    var segmentFrames: seq<Frame>
    var segmentTempFile: Option<Path>
    var segmentStartTime: Option<Moment>

    ghost predicate Valid()
      reads this
    {
      && (captureAlive ==> recordingStartTime.Some?)
      && (segmentAlive ==> segmentStartTime.Some?)
      && (segmentTempFile.Some? <==> segmentStartTime.Some?)
      && (segmentTempFile.Some? ==> segmentTempFile.value == TempSegmentFile)
      && audioCounter >= 1
    }

    /** The plain (unsegmented) capture: thread, buffer, start time, counter and LED. */
    ghost function CaptureState(): (bool, seq<Frame>, Option<Moment>, nat, bool)
      reads this
    {
      (captureAlive, frames, recordingStartTime, audioCounter, audioLed)
    }

    /** The segmented capture once a segment has been started. */
    ghost function SegmentState(): SegmentCapture
      reads this
      requires segmentStartTime.Some?
    {
      SegmentCapture(segmentAlive, segmentFrames, segmentStartTime.value)
    }

    constructor ()
      ensures Valid()
      ensures !captureAlive && !segmentAlive && !audioLed
      ensures recordingStartTime == None && segmentStartTime == None && segmentTempFile == None
      ensures audioCounter == 1
    {
      captureAlive := false;
      frames := [];
      recordingStartTime := None;
      audioCounter := 1;
      audioLed := false;
      segmentAlive := false;
      segmentFrames := [];
      segmentTempFile := None;
      segmentStartTime := None;
    }

    /** start_recording: a no-op while the capture thread is alive. Otherwise the
        start time is taken, the thread is started and the LED is turned on. The
        thread opens the device itself, so an open failure only ends the thread:
        the caller sees no error and the LED stays on. */
    method StartRecording(now: Moment, deviceOpens: bool)
      requires Valid()
      modifies this
      ensures Valid()
      ensures old(captureAlive) ==> unchanged(this)
      ensures !old(captureAlive) ==>
        && recordingStartTime == Some(now)
        && audioLed
        && captureAlive == deviceOpens
        && (deviceOpens ==> frames == [])
        && audioCounter == old(audioCounter)
      ensures segmentAlive == old(segmentAlive) && segmentFrames == old(segmentFrames)
      ensures segmentTempFile == old(segmentTempFile) && segmentStartTime == old(segmentStartTime)
    {
      if captureAlive {
        return;
      }
      recordingStartTime := Some(now);
      // record_audio: p.open raises inside the thread when the device cannot be opened
      if deviceOpens {
        frames := [];
        captureAlive := true;
      } else {
        captureAlive := false;
      }
      audioLed := true;
    }

    /** Reads the capture thread performs before it is stopped. */
    method CaptureFrames(outcomes: seq<ReadOutcome>)
      modifies this`frames
      ensures frames == if captureAlive then old(frames) + Captured(outcomes) else old(frames)
    {
      if captureAlive {
        frames := ReadFrames(frames, outcomes);
      }
    }

    /** stop_recording: joins the thread (which flushes its buffer to the temp
        file), turns the LED off and renames the temp file to the clip name; if
        the rename fails the temp path is returned. The counter goes up by one
        either way. Without any earlier start the start time is still None and
        formatting it raises. */
    method StopRecording(category: string, now: Moment, renamePermitted: bool, fs: FileSystem)
      returns (r: Result<Clip>, fs': FileSystem)
      requires Valid()
      modifies this
      ensures Valid()
      ensures !captureAlive && !audioLed
      ensures recordingStartTime == old(recordingStartTime)
      ensures old(recordingStartTime).None? ==> r == Err(AttributeError) && fs' == fs && audioCounter == old(audioCounter)
      ensures old(recordingStartTime).Some? ==>
        var start := old(recordingStartTime).value;
        var name := ClipName(old(audioCounter), start, now, category);
        var flushed := if old(captureAlive) then fs[TempAudioFile := WavFileSize(old(frames))] else fs;
        var rn := Rename(flushed, TempAudioFile, name, renamePermitted);
        && r == Ok(Clip(if rn.ok then name else TempAudioFile, start.clock, now.clock))
        && fs' == rn.fs
        && audioCounter == old(audioCounter) + 1
      ensures segmentAlive == old(segmentAlive) && segmentFrames == old(segmentFrames)
      ensures segmentTempFile == old(segmentTempFile) && segmentStartTime == old(segmentStartTime)
    {
      fs' := fs;
      if captureAlive {
        // the joined thread leaves its loop and writes the WAV file
        fs' := fs'[TempAudioFile := WavFileSize(frames)];
        captureAlive := false;
      }
      audioLed := false;
      if recordingStartTime.None? {
        return Err(AttributeError), fs';
      }
      var start := recordingStartTime.value;
      var name := ClipName(audioCounter, start, now, category);
      var rn := Rename(fs', TempAudioFile, name, renamePermitted);
      fs' := rn.fs;
      r := Ok(Clip(if rn.ok then name else TempAudioFile, start.clock, now.clock));
      audioCounter := audioCounter + 1;
    }

    /** start_segmented_recording: no guard; a new segment thread, with an
        empty buffer, replaces the previous one. */
    method StartSegmentedRecording(now: Moment, deviceOpens: bool)
      requires Valid()
      modifies this
      ensures Valid()
      ensures segmentStartTime == Some(now) && segmentTempFile == Some(TempSegmentFile)
      ensures segmentAlive == deviceOpens && segmentFrames == []
      ensures CaptureState() == old(CaptureState())
    {
      segmentStartTime := Some(now);
      segmentTempFile := Some(TempSegmentFile);
      segmentFrames := [];
      // record_segment_audio: p.open raises inside the thread when the device cannot be opened
      segmentAlive := deviceOpens;
    }

    /** Reads the segment thread performs before it is stopped. */
    method CaptureSegmentFrames(outcomes: seq<ReadOutcome>)
      modifies this`segmentFrames
      ensures segmentFrames == if segmentAlive then old(segmentFrames) + Captured(outcomes) else old(segmentFrames)
    {
      if segmentAlive {
        segmentFrames := ReadFrames(segmentFrames, outcomes);
      }
    }

    /** stop_segmented_recording: joins the segment thread and renames its temp
        file to audio_seg_{start}_to_{end}.wav, returning the temp path if the
        rename fails. No counter and no category are involved. */
    method StopSegmentedRecording(now: Moment, renamePermitted: bool, fs: FileSystem)
      returns (r: Result<Path>, fs': FileSystem)
      requires Valid()
      modifies this
      ensures Valid()
      ensures !segmentAlive
      ensures segmentStartTime == old(segmentStartTime) && segmentTempFile == old(segmentTempFile)
      ensures old(segmentStartTime).None? ==> r == Err(AttributeError) && fs' == fs
      ensures old(segmentStartTime).Some? ==>
        var f := SegmentClipFlush(fs, old(SegmentState()), now, renamePermitted);
        r == Ok(f.clip) && fs' == f.fs
      ensures CaptureState() == old(CaptureState())
    {
      fs' := fs;
      if segmentAlive {
        fs' := fs'[segmentTempFile.value := WavFileSize(segmentFrames)];
        segmentAlive := false;
      }
      if segmentStartTime.None? {
        return Err(AttributeError), fs';
      }
      var name := SegmentClipName(segmentStartTime.value, now);
      var rn := Rename(fs', segmentTempFile.value, name, renamePermitted);
      fs' := rn.fs;
      r := Ok(if rn.ok then name else segmentTempFile.value);
    }
  }
}
