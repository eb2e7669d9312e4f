# Capture appliance: recorders, button poller and still camera

A Dafny model of the core of a helmet-mounted capture appliance. Buttons on
an RF remote and a row of backup push buttons start and stop audio clips and
segmented video sessions and take still images.

- `common.dfy` (`Common`) holds the shared vocabulary. The file system is a
  map from path to size. `os.rename` and `os.remove` are functions with their
  failure cases. Clock readings are `Moment`s of already formatted tokens.
  `DecimalString` is Python's `str` of a counter.
- `audio.dfy` (`Audio`) models `AudioRecorder`. The capture loop keeps every
  successful read and skips the failed ones. The flush writes the temp WAV
  file. `stop_recording` renames it to `audio_{n}_{start}_to_{end}_{category}.wav`,
  and the segmented variant renames it to `audio_seg_{start}_to_{end}.wav`.
- `segments.dfy` (`Segments`) holds the value-level logic of the video
  sessions:
  - segment records and the temp, merged and final names;
  - the 50 MiB threshold and the video-only monitor as a function of its polls;
  - the muxer step (`merge_video_audio`);
  - the renaming loop of `stop_recording`;
  - the inner wait loop of the combined recording.
- `video.dfy` (`Video`) models `VideoRecorder` as a class:
  - `start_recording` and `stop_recording`;
  - the monitor thread's loop;
  - the segmentation thread's loop. One iteration (`RunChunk`) is the head
    (`OpenChunk`), the audio reads (`CaptureChunkAudio`), the wait for the
    threshold and the tail (`CloseChunk`). The functions `ChunkStep` and
    `ChunksRun` describe the same loop on values, and the lemmas about them
    say what a run of segments produces.
  Its invariant `Valid` ties the session flags, the threads' states, the
  camera's output file and the chain of records together.
- `gpio.dfy` (`Gpio`) models the button handler. It holds the pin tables, the
  press rule (rising edge on RF pins, falling edge on backup pins), the poll
  loop with its `last_state` table, and `cleanup`.
- `camera.dfy` (`Camera`) models the still camera:
  - the `preview_started` flag and the preview widget;
  - category sanitising;
  - the image file name and `image_counter`.

Threads are run as sequential steps:
- `MonitorVideoSize` is a stretch of the monitor loop.
- `RecordWithSegmentation` is a stretch of the segmentation loop.
- The join in `StopRecording` runs what the joined thread still does.

Things the model cannot see become parameters:
- whether a rename is permitted;
- how the muxer ends;
- whether a device opens;
- what a read returns;
- what the camera has written by each poll;
- whether a still capture succeeds;
- which GPIO actions raise.

Where the code and its design notes disagree, the model follows the code:
- `VideoRecorder.stop_recording` has no idle guard (recorder.py:271-321).
  Called when nothing records, it still finalises whatever `segments` holds
  and increments `session_counter`. In video-only mode it also appends a
  record for the stale `current_video_file` again. `VideoRecorder.StopRecording`
  states exactly this.
- Both audio capture threads open the input device themselves
  (recorder.py:41-44, 95-98). A device that cannot be opened only ends the
  thread. `start_recording` returns normally and the audio LED stays on.
- A muxer that cannot be launched, and an input file that is already gone
  when `merge_video_audio` removes it, raise exceptions that escape
  (recorder.py:262-269). They end the segmentation thread.

## Model

| member | source | states |
|---|---|---|
| Common.FoldersDisjoint | recorder.py:125-127 | Two paths in different folders whose names have the same length are different paths. |
| Common.Rename | recorder.py:308-312 | A rename succeeds exactly when it is permitted and the source exists. A failed rename changes nothing. A successful one gives the target the source's size, removes the source and leaves every other path alone. |
| Common.Remove | recorder.py:264-265 | A remove succeeds exactly when the path exists. It then deletes only that path. Otherwise it raises FileNotFound. |
| Common.DecimalString | recorder.py:77 | The counter is rendered as a non-empty run of decimal digits with no leading zero. |
| Common.DecimalRoundTrip | recorder.py:77 | Reading back the digits of a rendered counter gives the counter. |
| Common.DecimalInjective | recorder.py:77 | Different counters render differently. |
| Audio.TempFilesInAudios | recorder.py:24 | The temp WAV file lives in the `Audios` folder, and so does the segment temp file (recorder.py:91). |
| Audio.Captured | recorder.py:46-52 | The capture loop buffers at most one frame per read. |
| Audio.CapturedAppend | recorder.py:46-52 | Capturing two runs of reads one after the other buffers what each run buffers, in order. |
| Audio.CapturedOnlyErrors | recorder.py:47-51 | A read that raises is skipped, so reads that all fail capture nothing. |
| Audio.CapturedCount | recorder.py:46-52 | The buffer holds exactly one frame per successful read. |
| Audio.ReadFrames | recorder.py:45-52 | The capture loop's buffer is the previous buffer followed by the data of every successful read, in order. |
| Audio.ByteCount | recorder.py:60 | The byte count of the buffer is the length of the joined frames. |
| Audio.WavFileSize | recorder.py:56-61 | The temp WAV file is a 44-byte header followed by the joined frames. |
| Audio.ClipNameIsWav | recorder.py:77 | A clip name is a `.wav` file in the `Audios` folder. |
| Audio.SegmentClipNameIsWav | recorder.py:125 | A segment-clip name is a `.wav` file in the `Audios` folder. |
| Audio.ClipNameNotTemp | recorder.py:77-83 | A final clip name is never the temp file it is renamed from. |
| Audio.SegmentClipNameNotTemp | recorder.py:125-130 | A final segment-clip name is never the segment temp file. |
| Audio.SegmentClipFlush | recorder.py:110-131 | After the join and the rename, the clip is the segment-clip name or the temp path. It is on disk whenever the thread was alive or the temp file existed. No path other than these two changes. |
| Audio.AudioRecorder.constructor | recorder.py:20-30 | A new recorder has no live thread, no start time and no temp segment file, and its counter is 1. |
| Audio.AudioRecorder.StartRecording | recorder.py:32-39 | While the capture thread is alive nothing changes. Otherwise the start time is set and the LED turned on, and the thread is alive exactly when the device opened, with an empty buffer. The segment state is untouched. |
| Audio.AudioRecorder.CaptureFrames | recorder.py:46-52 | A live capture thread appends what its reads capture. A dead one changes nothing. |
| Audio.AudioRecorder.StopRecording | recorder.py:56-86 | The thread is stopped and the LED turned off. Without an earlier start it raises AttributeError, and the disk and the counter are unchanged. Otherwise a live thread first writes its buffer as the temp WAV file, which is then renamed to the clip name. The result is that name, or the temp path if the rename failed, with the start time and the one end reading. The counter goes up by one. The segment state is untouched. |
| Audio.AudioRecorder.StartSegmentedRecording | recorder.py:88-93 | With no guard, it sets the segment start time and temp file and empties the segment buffer. The segment thread is alive exactly when the device opened. The plain capture is untouched. |
| Audio.AudioRecorder.CaptureSegmentFrames | recorder.py:100-106 | A live segment thread appends what its reads capture. |
| Audio.AudioRecorder.StopSegmentedRecording | recorder.py:110-131 | The segment thread is stopped. The clip and the disk are those of SegmentClipFlush. It raises AttributeError, with the disk unchanged, when no segment was ever started. The clip counter and the plain capture are untouched. |
| Segments.VideoTempNameIsVideo | recorder.py:150-154 | A temp video name is a `.mp4` file in the `Videos` folder. |
| Segments.MergedNameIsVideo | recorder.py:250-253 | A muxer output name is a `.mp4` file in the `Videos` folder. |
| Segments.FinalNameIsVideo | recorder.py:304-307 | A final session name is a `.mp4` file in the `Videos` folder. |
| Segments.Prefix | recorder.py:301 | The prefix is `merged` exactly in combined mode and `vdo` exactly in video-only mode. |
| Segments.TempNameNotMerged | recorder.py:150-154 | A temp video name never equals a muxer output name. |
| Segments.ContiguousExtend | recorder.py:199-201 | Closing the open segment at t keeps the records a gap-free chain, now ending at t. |
| Segments.WriteReachesThreshold | recorder.py:183-185 | After the camera writes a size, the check finds the file at the threshold exactly when that size reaches 50 MiB. Without a write the check gives what it gave before, and a write to another file does not change it. |
| Segments.PollStep | recorder.py:182-203 | One monitor iteration closes a record exactly when the current file exists and has reached the threshold, so a file not yet on disk never rotates. The record runs from the segment start to the poll time, which starts the next segment in a new temp file. Otherwise nothing but the file size changes. |
| Segments.MonitorRun | recorder.py:182-205 | A run of polls closes at most one record per poll. |
| Segments.MonitorKeepsRecords | recorder.py:199 | Monitoring never rewrites or drops a record. It only appends. |
| Segments.MonitorKeepsChain | recorder.py:192-201 | In video-only mode the records always form a chain from the session start to the start of the open segment. |
| Segments.MonitorBelowThreshold | recorder.py:183-185 | If the check after every poll of the run finds the file below the threshold, nothing rotates. |
| Segments.MonitorEveryPollRotates | recorder.py:185-203 | When every check finds a full file, each poll closes exactly one record, ending at that poll. The first record is the file open before the run, and each later one is the file opened when its predecessor closed. The open file and segment start are those of the last poll. |
| Segments.MergedNameCategory | recorder.py:249-253 | Two muxer outputs for the same session, chunk and times have the same name exactly when their category texts agree. An empty category names the same file as a missing one. |
| Segments.MergeVideoAudio | recorder.py:246-269 | On exit status 0 with both inputs present, both inputs are deleted and `merged_{session}_{chunk}_{start}_to_{end}_{category}.mp4` is returned with the muxer's output, where a missing category gives an empty text. A non-zero exit returns None and deletes nothing. A launch failure, or an input already gone, raises. |
| Segments.FinalizeRun | recorder.py:300-317 | The renaming gives exactly one output per record. |
| Segments.FinalizeRunFinalizes | recorder.py:300-317 | The renaming gives one output per record, in order. Output i is the final name with ordinal i + 1, or the record's own file if that rename failed. It is always the record's own file when the system refuses ordinal i + 1. Start and end are copied. |
| Segments.FinalizeAllRefused | recorder.py:308-312 | When every rename is refused, the disk is untouched and every output keeps its record's file. |
| Segments.FinalizeKeepsPending | recorder.py:303-312 | When the records name different files that are all on disk, renaming the first records leaves the files of the later ones on disk. |
| Segments.FinalizeRenamed | recorder.py:303-312 | When the records name different files that are all on disk, every output whose ordinal the system permits gets its final name, with ordinal i + 1 for record i. |
| Segments.FinalizeSegments | recorder.py:300-317 | The for loop produces exactly FinalizeRun, both the outputs and the resulting disk, so the outputs are as FinalizeRunFinalizes states. |
| Segments.Await | recorder.py:214-217 | The wait ends early only when the video has reached the threshold. |
| Segments.AwaitReaches | recorder.py:214-217 | If some check sees the camera's file at the threshold, the wait ends early. |
| Segments.AwaitThreshold | recorder.py:214-217 | The wait loop is Await. It leaves early exactly when some check found the video on disk and at the threshold, and only the video file changes. |
| Video.ChunkTail | recorder.py:219-223 | The tail of a segment raises on a failed launch and keeps the raw video on a non-zero exit. On exit 0 with the video and its clip on disk it returns the merged name for this session and chunk, and the video is gone. |
| Video.ChunkStep | recorder.py:209-244 | One iteration only appends records and keeps chunk_num minus the number of records fixed. |
| Video.ChunksRun | recorder.py:209-244 | The loop over many iterations only appends records and keeps chunk_num minus the number of records fixed. |
| Video.ClosedRecords | recorder.py:224-244 | A run of closed segments has exactly one record per segment. |
| Video.ChunkStepCloses | recorder.py:214-244 | A segment that fills up, whose audio device opens and whose muxer runs, appends exactly one record: the merged file on exit 0, the raw video otherwise, from the segment start to its end. chunk_num goes up by one and the next segment starts at this one's end. |
| Video.ClosedAfterAppends | recorder.py:224-244 | Appending the records one segment at a time gives the records already there followed by ClosedRecords. |
| Video.ChunksRunClosedAfter | recorder.py:209-244 | Over a run of segments that all close, the loop appends their records one at a time and chunk_num counts them. |
| Video.ChunksEveryChunkCloses | recorder.py:209-244 | N segments that all close give exactly N records, in order, each starting at the previous one's end, and chunk_num goes up by N. |
| Video.ChunksEndAtLoopHead | recorder.py:243-244 | After segments that all close, the thread is back at its loop head with seg_start the end of the last segment. |
| Video.VideoRecorder.constructor | recorder.py:134-148 | A new recorder is idle, with no records, no video file, no running thread, and session counter and chunk number both 1. |
| Video.VideoRecorder.StartRecording | recorder.py:156-179 | While recording, nothing changes. Otherwise it sets `recording` and the LED, records `with_audio`, empties `segments` and sets the segment start from the first clock reading. With audio and an audio recorder it starts the segmentation thread. Otherwise the camera records to a temp file named after the second clock reading and the monitor runs. |
| Video.VideoRecorder.OpenSession | recorder.py:159-165 | The common head of a start sets the session flags and empties the records. |
| Video.VideoRecorder.StartMonitor | recorder.py:173-179 | In video-only mode the camera records to a temp file named after its own clock reading, and the monitor runs. |
| Video.VideoRecorder.MonitorVideoSize | recorder.py:181-205 | The monitor loop's records, current file and segment start are those of MonitorRun over its polls, and the camera always writes the current file. Outside a video-only session nothing changes. |
| Video.VideoRecorder.Rotate | recorder.py:186-203 | A rotation appends the current file as a record ending at the poll's reading, and starts a new temp file named after a later reading. |
| Video.VideoRecorder.OpenChunk | recorder.py:210-212 | Each segment of the combined loop records to a new temp file named after one clock reading. A segment clip starts at its own reading with an empty buffer. The plain audio capture is untouched. |
| Video.VideoRecorder.CaptureChunkAudio | recorder.py:100-106 | While the segment records, a live segment thread appends what its reads capture, and a dead one buffers nothing. |
| Video.VideoRecorder.CloseChunk | recorder.py:219-244 | The disk and the merge outcome are ChunkTail's. Closing a segment appends exactly one record: the merged file when the merge returned a path, otherwise the raw video. chunk_num goes up by one and the next segment starts at this one's end. A non-zero exit never merges, and exit 0 with both inputs present always does. An escaping exception ends the thread and appends nothing. The plain capture is untouched. |
| Video.VideoRecorder.AppendChunk | recorder.py:225-244 | The record spans from the segment start to its end, the chain stays gap-free, and chunk_num stays one past the number of records. |
| Video.VideoRecorder.RunChunk | recorder.py:209-244 | One iteration of the combined loop does exactly what ChunkStep describes, and leaves the plain capture untouched. |
| Video.VideoRecorder.RecordWithSegmentation | recorder.py:207-244 | The combined loop does exactly what ChunksRun describes, so it only appends records and keeps chunk_num minus the number of records fixed. A thread not at its loop head does nothing. |
| Video.VideoRecorder.CloseOnStop | recorder.py:275-298 | In combined mode, an open segment is closed exactly as ChunkTail says, appending its one record unless the merge raised. Otherwise the disk is untouched. In video-only mode the monitor is stopped, and a record for the current video file, ending now, is appended whenever there is one. Afterwards no thread runs. The records form a chain up to now when the monitor ran or a combined segment was appended. When a running segmentation thread appends nothing, the chain ends where its last segment ended. The plain capture is untouched. |
| Video.VideoRecorder.StopRecording | recorder.py:271-321 | With no idle guard, it leaves recording and the LED off and no thread running, and closes the open segment as CloseOnStop states. The outputs and the disk are FinalizeRun of the records, with the prefix of the session's mode, so they are as FinalizeRunFinalizes states. Then the session counter goes up and chunk_num is reset. |
| Video.VideoRecorder.EndSession | recorder.py:300-320 | The outputs and the disk are FinalizeRun of the records under the current session number. Then the counter goes up by one and chunk_num is reset to 1. |
| Gpio.BoardWellFormed | gpio_handler.py:14-25 | The loop visits every mapped pin exactly once per sweep. |
| Gpio.BoardPinLists | gpio_handler.py:14-28 | The RF and backup pin lists are disjoint, and together they are the mapped pins in the dictionary's order. |
| Gpio.BoardShutdownPin | gpio_handler.py:14-25 | Shutdown is bound to pin 27 only. |
| Gpio.PressIsChange | gpio_handler.py:51-54 | A press is a change of level on a button pin. A level read again never fires. |
| Gpio.Initial | gpio_handler.py:44 | `last_state` starts with the reading of every mapped pin and no press. |
| Gpio.PinStep | gpio_handler.py:47-62 | One pin records its new reading and leaves every other pin's entry alone. On an edge it appends exactly one press of that pin's action, and otherwise none. |
| Gpio.SweepRun | gpio_handler.py:46-62 | A sweep keeps the earlier presses and adds at most one per pin. |
| Gpio.PollRun | gpio_handler.py:45-62 | The poll loop keeps every earlier press and the table of every mapped pin. |
| Gpio.SweepLast | gpio_handler.py:62 | After the loop over some pins, `last_state` holds this sweep's reading for each of them, whether or not it fired, and is unchanged elsewhere. |
| Gpio.SweepRecordsReading | gpio_handler.py:46-62 | After a full sweep, `last_state` equals that sweep's reading of every pin. |
| Gpio.SweepMatchesEdges | gpio_handler.py:46-62 | Since a sweep visits each pin once, its presses are exactly the pins that make an edge against the table as it stood before the sweep, in visiting order. |
| Gpio.EdgesFire | gpio_handler.py:51-54 | A pin fires in a sweep exactly when it makes an edge. A pin not visited never fires. |
| Gpio.SweepFiresOnEdge | gpio_handler.py:51-57 | A pin fires in a sweep exactly when it is an RF pin going from LOW to HIGH or a backup pin going from HIGH to LOW. |
| Gpio.RaisesDoNotStopPolling | gpio_handler.py:55-59 | A raising action is caught: which pins fire, and `last_state`, do not depend on which actions raise. |
| Gpio.SweepIgnoresRaises | gpio_handler.py:55-62 | The same holds within one sweep. |
| Gpio.GpioHandler.constructor | gpio_handler.py:14-39 | The handler starts with the board's pin tables and `running` set. |
| Gpio.GpioHandler.PollGpio | gpio_handler.py:43-63 | While `running`, the loop's presses and `last_state` are PollRun over the sweeps. A cleaned-up handler only reads the initial table. |
| Gpio.GpioHandler.Sweep | gpio_handler.py:46-62 | One pass of the for loop over the pins is SweepRun in the dictionary's order. |
| Gpio.GpioHandler.Cleanup | gpio_handler.py:69-71 | `running` is cleared, so no further sweep starts. |
| Camera.Lower | camera.py:53 | Lower-casing folds A-Z to a-z and leaves every other character. |
| Camera.Sanitize | camera.py:53 | Each character of the category is kept in place: a space becomes '_', and any other character is lower-cased. |
| Camera.SanitizeIdempotent | camera.py:53 | A sanitized category has no spaces and no upper-case letters, and sanitizing it again changes nothing. |
| Camera.ImageNameIsImage | camera.py:57 | An image name is a `.jpg` file in the `Images` folder. |
| Camera.ImageNamesDistinct | camera.py:55-57 | Images with different counters never share a file name, whatever their times and categories. |
| Camera.Camera.constructor | camera.py:12-16 | A new camera has no widget, no preview and counter 1. |
| Camera.Camera.StartPreview | camera.py:27-42 | While the preview runs, it returns the existing widget and changes nothing. Otherwise it returns a new widget and sets the flag. |
| Camera.Camera.StopPreview | camera.py:44-47 | The flag is cleared and the widget kept, so a second call does nothing. |
| Camera.Camera.CaptureImage | camera.py:49-72 | The result is a path exactly when the capture succeeded. The path is `Images/img_{counter}_{date}_{time}_{category}.jpg`, with the counter before the capture and the sanitized category (default `general`), and the counter goes up by exactly one. A failure raises and leaves the counter unchanged. |

## Left out

- Threads, `threading.Event`, `join` and `time.sleep` are not modelled. Each loop iteration is one sequential step. A thread's remaining work after a stop is what the join runs. The debounce and poll sleeps of the button loop are not modelled.
- The audio device (pyaudio) and the WAV writer (wave) are not modelled. A read is a byte string or an error. The temp WAV file's size is taken as a 44-byte header plus the buffered bytes. File contents are not modelled.
- The `ffmpeg` process is replaced by its outcome: exit 0 with an output size, non-zero exit, or a failed launch.
- Picamera2 calls are not modelled: configure, start, start and record, stop, capture, and the `QGlPicamera2` widget. The file the camera records to is a field of `VideoRecorder`. The `try/except` around `picam2.stop_recording` in the monitor and in `stop_recording` is taken as success. An exception from the unguarded `stop_recording` call in the segmentation thread (recorder.py:219) is not modelled.
- `apply_video_transform`, `update_controls` (floating-point scaling into a camera call) and `led_status_blink` are not modelled.
- `datetime.now()` and `strftime` are not modelled. Each call of `datetime.now()` is its own `Moment` parameter of opaque formatted tokens, so two readings may differ.
- Video.ChunksEveryChunkCloses: it covers runs in which every segment fills up, its audio device opens and its muxer launches. Other runs are described by ChunksRun and RecordWithSegmentation only.
- Camera.Sanitize: `str.lower()` folds only the ASCII letters A-Z. The rest of Unicode case mapping is not modelled.
- Video.VideoRecorder.StopRecording: the joined thread's remaining work runs before `recording` is cleared, while the source clears `recording` first. No other party observes the fields in between, so the final state is the same.
- The segmentation thread of a previous combined session is taken as finished when a new session starts. Two segmentation threads running at once are not modelled.
- LED pins and blinking (led_handler.py), the Qt front end and uploads (main.py), `shutdown_pi`'s `os.system` call, `GPIO.setup`/`GPIO.cleanup` and `os.makedirs` are not modelled. An LED is a boolean field, and a button action is a label.
- The debug prints of the poll loop and the error prints of the recorders are not modelled.
