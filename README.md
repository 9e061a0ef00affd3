# Screen recorder core, modelled in Dafny

The system records the screen, a region of a monitor or a whole monitor, and
optionally an audio input. The result is an MP4/AVI/MKV/MOV file produced by an
FFmpeg child process. This project models the recording core of that system:

- `Buffering`: the bounded frame and audio buffers (drop-newest when full,
  with accepted and dropped counters).
- `Sync`: the synchronisation manager that picks the frame nearest a target
  time and puts the others back.
- `Screen`: the screen grabber. It handles the headless fallback, Python
  list indexing of monitors, BGRA to BGR conversion and BGRX to RGB.
- `Audio`: the audio grabber. It handles device enumeration and lookup, the
  default device fallback, starting and stopping the stream, the two
  capture loops, and the size in MB.
- `Encoder`: the video encoder. It covers configuration checks and the
  extension fix, the exact ffmpeg argument vectors for encoding, muxing and
  encoding from files, the write paths, and finish_encoding's temp-file and
  mux dance on a file-system value.
- `Recorder`: the recording session. It covers the start/pause/resume/stop
  guards, paused-time accounting, elapsed and remaining time, one iteration
  of the capture loop, and the drains that stop performs.
- `ConfigStore`: the JSON settings store with its ten defaults.
- `Widgets`: the time entry's seconds split and join, and the progress bar
  clamp.
- `Cli`: the command line's `--region` parser and the output path
  normalisation.

Helper modules model the pieces of the Python runtime the core relies on:

- `Common`: bytes, Option and Result.
- `Text`: ASCII `lower`, `strip`, `split` and `join`, substring search, and
  `int()` / `str()` on integers.
- `Paths`: the POSIX `pathlib` subset used here (`parts`, `name`, `suffix`,
  `with_suffix`, `is_absolute`, `/`).
- `CommandLine`: how ffmpeg reads an argument vector back into inputs,
  options and an output. The encoder's commands are proved to read back as
  intended.

Everything the core does not compute itself is a parameter of the model:

- clock readings (`now`);
- what `mss` grabs;
- the PyAudio device table and stream;
- whether `ffmpeg -version` succeeds;
- the exit of the encoding process and of the mux run;
- whether a pipe write or file append succeeds;
- the file system (a `map<string, Bytes>`);
- the settings file;
- the generated file name and the working directory of the command line.

Objects whose fields the source updates are classes with those fields:
`FrameBuffer`, `AudioBuffer`, `SyncManager`, `ScreenCapture`,
`AudioCapture`, `VideoEncoder`, `VideoRecorder`, `Config`, `TimeEntry` and
`ProgressBarWithLabel`. Each class method is tied to a function on the
old state, and the properties are proved about those functions.

`load()` of an existing but unreadable settings file leaves an empty
dictionary without defaults, as the code does (src/utils/config.py:24-32):
only a missing file gets `set_defaults`. The two defects listed under Findings are
modelled twice. An as-written definition exhibits each defect. The class
`VideoRecorder` uses the corrected definition:

- the paused elapsed time: `PauseAwareElapsed` instead of
  `ElapsedAsWritten`;
- the audio decision of `start_recording`: `AudioKept` instead of
  `AudioKeptAsWritten`.

## Model

| member | source | states |
|---|---|---|
| Buffering.OfferAllPrefix | src/core/buffering.py:24-36 | consecutive puts keep exactly the first entries that fit (the newest are dropped), appended in order; accepted and dropped grow by the admitted and refused counts |
| Buffering.OfferAllConserves | src/core/buffering.py:32-36 | every put is counted once, as accepted or as dropped, and neither counter decreases |
| Buffering.OfferAllBounded | src/core/buffering.py:24-36 | any number of puts keeps occupancy within a positive capacity |
| Buffering.OverflowFromEmpty | src/core/buffering.py:12-36 | an empty buffer of capacity n given m >= n items holds the first n and counts m - n as dropped |
| Buffering.RunIsFifo | src/core/buffering.py:24-51 | over any interleaving of put and get, what the gets returned followed by what is queued equals what was queued followed by every accepted put (FIFO); bound and counts kept |
| Buffering.FrameBuffer.constructor | src/core/buffering.py:12-22 | an empty queue of capacity max_size (default 100) with both counters zero |
| Buffering.FrameBuffer.Put | src/core/buffering.py:24-36 | appends when there is room and counts it, otherwise counts a drop; the bound is kept |
| Buffering.FrameBuffer.Get | src/core/buffering.py:38-51 | removes and returns the oldest entry; an empty buffer returns None and is unchanged |
| Buffering.FrameBuffer.Size | src/core/buffering.py:53-55 | the number of queued entries |
| Buffering.FrameBuffer.Clear | src/core/buffering.py:57-63 | the queue becomes empty and the counters are unchanged |
| Buffering.AudioBuffer.constructor | src/core/buffering.py:69-79 | an empty queue of capacity max_size (default 200) with both counters zero |
| Buffering.AudioBuffer.Put | src/core/buffering.py:81-93 | appends when there is room and counts it, otherwise counts a drop; the bound is kept |
| Buffering.AudioBuffer.Get | src/core/buffering.py:95-108 | removes and returns the oldest chunk; an empty buffer returns None and is unchanged |
| Buffering.AudioBuffer.Size | src/core/buffering.py:110-112 | the number of queued chunks |
| Buffering.AudioBuffer.Clear | src/core/buffering.py:114-120 | the queue becomes empty and the counters are unchanged |
| Sync.Distance | src/core/sync_manager.py:65 | the absolute difference of timestamp and target: non-negative and one of the two differences |
| Sync.BestIndex | src/core/sync_manager.py:64-68 | an index whose entry is nearest the target, with every earlier entry strictly farther (the first on ties, because the comparison is strict) |
| Sync.Without | src/core/sync_manager.py:72-74 | removes every entry equal to the chosen one and keeps the multiplicity of every other entry |
| Sync.NextFrameIsNearest | src/core/sync_manager.py:52-76 | an empty buffer gives None and no change; otherwise the result is among the first min(10, size) entries, nearest the target, with no earlier one as near |
| Sync.NextFrameRequeues | src/core/sync_manager.py:59-74 | afterwards the queue is the uninspected rest followed by the inspected entries other than the result, put back in order; drops and capacity unchanged |
| Sync.NextFrameLosesOnlyCopiesOfBest | src/core/sync_manager.py:72-74 | the only entries that leave the buffer are the inspected ones equal to the returned frame |
| Sync.SyncManager.constructor | src/core/sync_manager.py:11-23 | keeps both buffers, no start time, both offsets zero |
| Sync.SyncManager.Start | src/core/sync_manager.py:25-29 | the start time is now and both offsets are zero |
| Sync.SyncManager.CurrentTime | src/core/sync_manager.py:31-40 | 0 before start; otherwise the start time plus the result is now |
| Sync.SyncManager.GetNextFrame | src/core/sync_manager.py:42-76 | result and new frame buffer are NextFrame of the old buffer at the target, or at the current time when none is given |
| Sync.SyncManager.ScanFront | src/core/sync_manager.py:59-69 | takes the first count entries off the buffer in order and returns the first nearest of them |
| Sync.SyncManager.Requeue | src/core/sync_manager.py:71-74 | puts back, in order, every taken entry that differs from the chosen one |
| Sync.SyncManager.GetNextAudio | src/core/sync_manager.py:78-93 | the oldest audio chunk whatever the target (the target is computed and unused) |
| Sync.SyncManager.Reset | src/core/sync_manager.py:95-99 | no start time and both offsets zero |
| Screen.PyIndex | src/core/screen_capture.py:54-58 | Python list indexing: defined exactly for -len <= i < len, negative indices count from the end, otherwise IndexError |
| Screen.DropAlphaLength | src/core/screen_capture.py:87-89 | dropping the fourth channel leaves three bytes per pixel |
| Screen.DropAlphaKeepsColour | src/core/screen_capture.py:87-89 | byte c of pixel k after the conversion is byte c of pixel k before, for the three colour channels |
| Screen.ToBgrShape | src/core/screen_capture.py:86-89 | a 4-channel image becomes a well-shaped 3-channel one of the same size; any other image is unchanged |
| Screen.BgrxToRgbSwaps | src/core/screen_capture.py:147 | the RGB bytes of pixel k are the BGRX bytes 2, 1, 0 of pixel k |
| Screen.ScreenCapture.constructor | src/core/screen_capture.py:13-24 | with a display the monitors are the backend's; without one, one 1920x1080 monitor at the origin and no display |
| Screen.ScreenCapture.GetMonitors | src/core/screen_capture.py:26-33 | the monitor list |
| Screen.ScreenCapture.GetPrimaryMonitor | src/core/screen_capture.py:35-42 | monitors[0], an IndexError exactly when there are none |
| Screen.ScreenCapture.GetScreenSize | src/core/screen_capture.py:44-60 | width and height of the monitor Python indexing selects, negative indices counting from the end (0 is the first entry); IndexError exactly for indices outside that range |
| Screen.ScreenCapture.CaptureFullScreen | src/core/screen_capture.py:62-91 | no display raises first; a bad index raises IndexError; otherwise the monitor Python indexing selects is grabbed: a failed grab is an error, a successful one is converted to BGR |
| Screen.ScreenCapture.CaptureRegion | src/core/screen_capture.py:93-133 | no display raises; a bad index raises IndexError; otherwise the region offset by the selected monitor's top and left, width and height as given, is grabbed: a failed grab is an error, a successful one is converted to BGR |
| Screen.ScreenCapture.CaptureToPil | src/core/screen_capture.py:135-147 | fails without a display (there is no grabber); a result has three channels |
| Screen.ScreenCapture.Close | src/core/screen_capture.py:149-155 | the grabber is closed when there was one |
| Screen.HeadlessFallback | src/core/screen_capture.py:19-23 | without a display the size is 1920x1080, the primary monitor is the fallback and both captures raise the no-display error |
| Audio.Truncate | src/core/audio_capture.py:91 | int() of a float rounds toward zero |
| Audio.InputDevicesSound | src/core/audio_capture.py:67-100 | every listed device is an input device of the table, described from its own entry, listed in increasing index order |
| Audio.InputDevicesComplete | src/core/audio_capture.py:82-94 | every input device of the table is listed |
| Audio.FirstMatchIsFirst | src/core/audio_capture.py:102-116 | None exactly when no name contains the query case-insensitively; otherwise the first device whose name does |
| Audio.DefaultDeviceFallback | src/core/audio_capture.py:118-141 | fails, with "no input devices", exactly when the default entry is unreadable and no input device exists; otherwise falls back to the first input device |
| Audio.DeliveredStopsAtFailure | src/core/audio_capture.py:213-231 | the delivered chunks are the payloads of the reads, in order, up to the first failing read |
| Audio.AudioCapture.constructor | src/core/audio_capture.py:38-65 | keeps the backend, rate and channels; open, no stream, not recording, empty queue and frames |
| Audio.AudioCapture.GetAudioDevices | src/core/audio_capture.py:67-100 | the input devices of the table; the devices flag records whether there are any; nothing else changes |
| Audio.AudioCapture.FindDeviceByName | src/core/audio_capture.py:102-116 | the first input device whose name contains the query, ignoring case |
| Audio.AudioCapture.GetDefaultInputDevice | src/core/audio_capture.py:118-141 | the default device lookup with its fallback; a readable default leaves the devices flag alone, the fallback sets it to whether any input device exists; nothing else changes |
| Audio.AudioCapture.StartCapture | src/core/audio_capture.py:143-211 | already recording: nothing happens; no input device: an error; otherwise the given or the default device opens (mode per callback) or the open failure is reported with the state unchanged; the no-device error also leaves the stream, the frames and the capture mode alone; the devices flag is refreshed unless already recording, when it is kept |
| Audio.AudioCapture.CaptureToQueue | src/core/audio_capture.py:223-231 | the delivered chunks are appended to both the queue and the captured frames, only while recording with a stream |
| Audio.AudioCapture.CaptureWithCallback | src/core/audio_capture.py:213-221 | the callback receives the delivered chunks, only while recording with a stream |
| Audio.AudioCapture.GetAudioData | src/core/audio_capture.py:233-246 | the oldest queued chunk, removed, or None for an empty queue |
| Audio.AudioCapture.GetAllCapturedFrames | src/core/audio_capture.py:248-255 | its length is the total length of the captured chunks |
| Audio.AudioCapture.GetCapturedSizeMb | src/core/audio_capture.py:270-278 | non-negative, and the size times 1024*1024 is the captured byte count |
| Audio.AudioCapture.StopCapture | src/core/audio_capture.py:257-268 | not recording and no stream; the queue and frames are kept |
| Audio.AudioCapture.Close | src/core/audio_capture.py:280-286 | stopped and PyAudio terminated |
| Encoder.FixExtensionSound | src/core/video_encoder.py:56-59 | fails only for an empty path; otherwise the result's lowercased suffix names the format, the fix is idempotent, and the directory and absoluteness are kept |
| Encoder.Configure | src/core/video_encoder.py:23-65 | an unsupported lowercased format is refused first, then an unknown quality; an accepted configuration keeps the size, fps and quality and holds the fixed path |
| Encoder.RenderFirstInput | src/core/video_encoder.py:112-128 | the rendered first input is exactly the literal start of start_encoding's list: ffmpeg, -y, rawvideo in and out, the WxH size, bgr24, the frame rate, then -i and the source |
| Encoder.RenderAudioInput | src/core/video_encoder.py:129-156 | there is a second input exactly with audio, and it renders to the literal audio part of the list: an audio file as s16le 44100 Hz stereo, else pipe:1 at the session's rate and channels, else nothing |
| Encoder.RenderOutput | src/core/video_encoder.py:158-191 | the rendered output options and path are exactly the literal end of the list: libx264 medium at the preset's crf and yuv420p, with the audio codec, bitrate and -shortest when there is audio |
| Encoder.EncodeCommandWellFormed | src/core/video_encoder.py:112-191 | the encode command is one ffmpeg can read unambiguously when the output is not an option |
| Encoder.ArgvPieces | src/core/video_encoder.py:112-191 | the argument vector is "ffmpeg", the video input, the audio inputs and the output, in that order |
| Encoder.EncodeArgsIsArgv | src/core/video_encoder.py:112-191 | the literal list start_encoding builds is the rendering of the encode command |
| Encoder.EncodeArgsReadBack | src/core/video_encoder.py:112-191 | reading start_encoding's argument list back gives exactly the intended inputs, options and output |
| Encoder.EncodeVideoInput | src/core/video_encoder.py:112-128 | as ffmpeg reads it, the first input is the given source at format rawvideo, size WxH, bgr24, fps |
| Encoder.EncodeAudioInput | src/core/video_encoder.py:129-156 | a second, s16le input exists exactly with audio: the file at 44100/2, or pipe:1 at the session's rate and channels |
| Encoder.EncodeOutput | src/core/video_encoder.py:158-191 | ffmpeg reads libx264 at the preset's crf; the audio codec and bitrate exactly when there is audio, and -shortest exactly then; the output path last |
| Encoder.MuxArgsIsArgv | src/core/video_encoder.py:310-331 | the literal mux argument list of finish_encoding is the rendering of the structured mux command |
| Encoder.MuxArgsReadBack | src/core/video_encoder.py:310-331 | the mux argument list reads back as the intended mux command |
| Encoder.MuxCommandMeaning | src/core/video_encoder.py:310-331 | the mux reads the moved video and the raw audio at the session's rate and channels, copies the video, encodes the audio at the preset's bitrate, and is -shortest |
| Encoder.FilesArgsIsArgv | src/core/video_encoder.py:377-401 | encode_from_files' literal list is the rendering of its command |
| Encoder.FilesArgsReadBack | src/core/video_encoder.py:377-401 | encode_from_files' list reads back as its command |
| Encoder.FilesCommandMeaning | src/core/video_encoder.py:377-401 | the video file, the audio file when one is given, the preset's crf and the format's audio codec, the output last |
| Encoder.EncodeFromFiles | src/core/video_encoder.py:359-408 | the output path exactly when ffmpeg is available and its run exits with 0; the ffmpeg-missing error without ffmpeg |
| Encoder.AppendAllConcatenates | src/core/video_encoder.py:234-252 | appending chunks one call at a time leaves the file holding its old bytes and then the chunks in order; every other file is unchanged |
| Encoder.FinishOutcome | src/core/video_encoder.py:254-357 | success exactly when the output file exists afterwards; a non-zero exit of the encoder reports the failure with the process kept and stdin closed; otherwise the process is gone, encoding is off and the scratch audio is removed |
| Encoder.MuxFailureRestoresVideo | src/core/video_encoder.py:333-352 | a failing mux moves the temp video back to the output path and removes the temp video and the scratch audio |
| Encoder.MuxSuccessCleansUp | src/core/video_encoder.py:333-352 | a successful mux leaves what it wrote at the output path and removes the temp video and the scratch audio |
| Encoder.MuxTimeoutLeavesVideoMoved | src/core/video_encoder.py:304-341 | a mux that times out leaves no output file and the video still at its temp name |
| Encoder.FinishTwice | src/core/video_encoder.py:254-357 | a second finish_encoding after one that got past the process step changes nothing and reports the same outcome |
| Encoder.SendFramesOutcome | src/core/video_encoder.py:219-232 | frames through a working pipe reach the process in order; a broken pipe turns encoding off; with no open process nothing happens |
| Encoder.AudioWrittenAllAppends | src/core/video_encoder.py:234-252 | audio chunks are appended to the scratch file only with audio, a scratch path and working writes; otherwise the files are unchanged |
| Encoder.VideoEncoder.constructor | src/core/video_encoder.py:61-65 | no process, not encoding, no audio, default rate and channels, no scratch file |
| Encoder.VideoEncoder.StartEncoding | src/core/video_encoder.py:80-217 | without ffmpeg an error and no change; while encoding no change; otherwise a running process with the encode argument list, the audio settings when audio is on, and an empty scratch file |
| Encoder.VideoEncoder.WriteFrame | src/core/video_encoder.py:219-232 | the state becomes SendFrame of the old state |
| Encoder.VideoEncoder.WriteAudio | src/core/video_encoder.py:234-252 | the files become AudioWritten of the state and the old files |
| Encoder.VideoEncoder.FinishEncoding | src/core/video_encoder.py:254-357 | result, state and files are Finish of the old state and files |
| Encoder.VideoEncoder.MuxFiles | src/core/video_encoder.py:300-352 | the files become Mux of the configuration, the state and the old files: the video moved aside, the mux run, then restored or cleaned up and the scratch audio removed |
| CommandLine.ParseArgv | src/core/video_encoder.py:112-191 | a well-formed invocation rendered as an argument list reads back as itself |
| Recorder.PausedElapsedIsNegative | src/core/recorder_manager.py:360-366 | as written, a session started at 100, paused at 105 and asked at 110 reports -15; the corrected definition reports 5 |
| Recorder.PauseAwareElapsedContinuous | src/core/recorder_manager.py:350-368 | the corrected elapsed time stands still while paused, agrees with the loop's active time otherwise, and is unchanged by pausing or resuming at that moment |
| Recorder.Remaining | src/core/recorder_manager.py:370-382 | None exactly without a truthy duration; otherwise never negative, duration minus the (corrected) elapsed time while within it, 0 after |
| Recorder.PauseThenResume | src/core/recorder_manager.py:294-306 | a pause at t1 and a resume at t2 charge exactly t2 - t1 of paused time so the active time resumes where it stopped; a second pause is ignored; a resume without pause changes nothing |
| Recorder.AdvanceAfterResume | src/core/recorder_manager.py:217-226 | the loop's pause bookkeeping does not charge a pause that a resume already charged |
| Recorder.CapturesPaced | src/core/recorder_manager.py:237-257 | captured instants are loop instants, each at least a frame time after the previous capture |
| Recorder.CapturesRate | src/core/recorder_manager.py:237-257 | no more frames than the time span over the frame time |
| Recorder.Report | src/core/recorder_manager.py:260-269 | the callback's elapsed is the active time; a remaining time exactly with a duration, positive, and adding up to the duration |
| Recorder.StaleAudioCaptureKept | src/core/recorder_manager.py:129-168 | as written, a session started without audio after one with audio still records audio |
| Recorder.AudioKept | src/core/recorder_manager.py:129-157 | the corrected decision keeps audio only when asked for, and agrees with the code whenever no capture is left from before |
| Recorder.Payloads | src/core/recorder_manager.py:273-292 | the payloads of the queued entries, in order |
| Recorder.VideoRecorder.constructor | src/core/recorder_manager.py:17-52 | frame time 1/fps, empty buffers of 100 and 200, no start time, not recording, monitor 1, no region, no encoder or audio capture |
| Recorder.VideoRecorder.SetScreenRegion | src/core/recorder_manager.py:54-61 | sets the region, nothing else |
| Recorder.VideoRecorder.SetMonitor | src/core/recorder_manager.py:63-70 | sets the monitor index, nothing else |
| Recorder.VideoRecorder.SetProgressCallback | src/core/recorder_manager.py:72-79 | the callback flag becomes whether a callback (rather than None) is given; nothing else changes |
| Recorder.VideoRecorder.SetUpAudio | src/core/recorder_manager.py:129-157 | an audio capture exists exactly when PyAudio starts and finds input devices, and then it has the requested rate and channels and is not yet recording |
| Recorder.VideoRecorder.ChooseAudio | src/core/recorder_manager.py:128-157 | a fresh, idle capture exists exactly when the corrected audio decision keeps audio; the timing, encoder and target are unchanged |
| Recorder.VideoRecorder.PrepareEncoder | src/core/recorder_manager.py:111-168 | a configuration error or missing ffmpeg is reported with the files unchanged; otherwise a fresh encoder runs the encode command, with audio exactly when the corrected audio decision keeps it |
| Recorder.VideoRecorder.MarkStarted | src/core/recorder_manager.py:170-175 | the session is running, unpaused, started at now with the given duration, no paused time and no frames counted |
| Recorder.VideoRecorder.StartAudio | src/core/recorder_manager.py:177-191 | without a capture or a chosen device nothing fails; a capture left recording is stopped and the stream restarts with the callback, or the failure leaves it idle |
| Recorder.VideoRecorder.BeginSession | src/core/recorder_manager.py:170-210 | the session is recording, unpaused, started now with no paused time and no frames; the sync starts; the audio stream opens in callback mode when a device was chosen |
| Recorder.VideoRecorder.StartRecording | src/core/recorder_manager.py:81-210 | already recording: nothing changes; the screen size, configuration and ffmpeg errors leave the timing unchanged; otherwise the encoder runs, with audio exactly when asked for and available, and the session starts now |
| Recorder.VideoRecorder.AudioCallback | src/core/recorder_manager.py:178-191 | while recording and not paused a chunk is put with the active time as its timestamp; otherwise the buffer is unchanged |
| Recorder.VideoRecorder.PauseRecording | src/core/recorder_manager.py:294-298 | the timing becomes PauseClock of the old timing |
| Recorder.VideoRecorder.ResumeRecording | src/core/recorder_manager.py:300-306 | the timing becomes ResumeClock of the old timing |
| Recorder.VideoRecorder.GetElapsedTime | src/core/recorder_manager.py:350-368 | 0 before a start; while paused the time recorded up to the pause (the corrected branch of the Findings); otherwise now minus start minus paused time |
| Recorder.VideoRecorder.GetRemainingTime | src/core/recorder_manager.py:370-382 | Remaining of the timing |
| Recorder.VideoRecorder.DrainFrames | src/core/recorder_manager.py:273-279 | every queued frame goes to the encoder, in order, and the frame buffer is empty |
| Recorder.VideoRecorder.DrainAudio | src/core/recorder_manager.py:281-292 | while paused nothing moves; otherwise every queued chunk is appended to the scratch audio, in order, and the audio buffer is empty |
| Recorder.VideoRecorder.StopRecording | src/core/recorder_manager.py:308-348 | not recording: nothing changes and the result is None; otherwise recording stops, the frame buffer is drained into the encoder, the audio buffer is drained into the audio file only when there is an audio capture and the recorder is not paused, the audio stream is closed (PyAudio stays open) and the encoder is finished; the callback flag, region, monitor and device choice are kept |
| Recorder.VideoRecorder.RecordingStep | src/core/recorder_manager.py:212-271 | stopped: exits; paused: only the pause start is recorded; past a truthy duration: stops; otherwise a due frame that grabs is put at the active time and counted, and the report is Report of the timing after a pending pause is charged: active time, remaining time, frame count and audio megabytes, exactly when a callback is set; when the session continues (exits, waits or captures), the audio buffer, the encoder, the audio capture, the callback flag, region, monitor and device choice are unchanged |
| Recorder.VideoRecorder.ActiveStep | src/core/recorder_manager.py:228-271 | past a truthy duration the session stops with its frames drained; otherwise the timing is kept, a due frame that grabs is queued at the active time, and exactly when a callback is set it gets Report of the timing: the active time, the remaining time (present exactly for a truthy duration, positive, adding up to it), the frame count and the captured audio megabytes or 0.0; when the session continues, the audio buffer, the encoder, the audio capture, the callback flag, region, monitor and device choice are unchanged |
| Recorder.VideoRecorder.CaptureIfDue | src/core/recorder_manager.py:236-257 | a frame is queued at the given time and counted exactly when a frame time has passed and the grab succeeds; otherwise nothing changes |
| Recorder.VideoRecorder.Cleanup | src/core/recorder_manager.py:384-393 | not recording before: None and the files unchanged; recording: the result, the encoder state and the files are Finish of the encoder after the drained frames and, with an audio capture and not paused, the drained audio, exactly as StopRecording gives them; afterwards not recording; when that result is None or a path, the audio capture (PyAudio too) and the screen grabber are closed; when finishing the encoder failed the error escapes and both are left as they were |
| ConfigStore.DefaultsMap | src/utils/config.py:42-53 | exactly the ten default keys, each with its default value |
| ConfigStore.WithDefaults | src/utils/config.py:40-57 | keeps every present key's value and adds each missing default key with its default |
| ConfigStore.WithDefaultsIdempotent | src/utils/config.py:40-57 | filling in the defaults twice is filling them in once |
| ConfigStore.DefaultsUpToStep | src/utils/config.py:55-57 | one iteration of the insertion loop adds the key's default exactly when the key is missing |
| ConfigStore.Config.constructor | src/utils/config.py:11-20 | the dictionary is what load gives for the file |
| ConfigStore.Config.Load | src/utils/config.py:22-32 | a missing file gives the defaults, an unreadable one the empty dictionary, a readable one its contents |
| ConfigStore.Config.Save | src/utils/config.py:34-38 | the file holds the dictionary |
| ConfigStore.Config.SetDefaults | src/utils/config.py:40-57 | the dictionary becomes WithDefaults of the old one; the file is untouched |
| ConfigStore.Config.Get | src/utils/config.py:59-70 | the stored value, or the default for an absent key |
| ConfigStore.Config.Set | src/utils/config.py:72-81 | the key reads back as the value, every other key is unchanged, and the file holds the result |
| ConfigStore.Config.Update | src/utils/config.py:83-91 | updated keys read the new values, others are unchanged, and the file holds the result |
| ConfigStore.Config.Reset | src/utils/config.py:93-97 | the dictionary and the file are exactly the defaults |
| ConfigStore.SaveThenLoad | src/utils/config.py:22-38 | saving and then loading gives back the saved dictionary |
| Widgets.SplitSeconds | src/gui/widgets.py:71-84 | minutes and seconds are within 0..59 |
| Widgets.SplitSecondsRoundTrip | src/gui/widgets.py:58-84 | reading the total after setting it gives it back, for negative totals too |
| Widgets.SplitOfTotal | src/gui/widgets.py:58-84 | setting the read total shows the same values exactly when minutes and seconds are within 0..59 |
| Widgets.HoursNotClamped | src/gui/widgets.py:29-35 | 90000 s shows 25 hours although the hours spinbox stops at 23 |
| Widgets.NegativeTotal | src/gui/widgets.py:78-80 | -1 s shows -1 h 59 min 59 s, as floor division gives |
| Widgets.TimeEntry.constructor | src/gui/widgets.py:20-22 | a new entry shows 0 h 0 min 0 s |
| Widgets.TimeEntry.SetTotalSeconds | src/gui/widgets.py:71-84 | the entry shows the split of n and reading the total gives n |
| Widgets.Clamp | src/gui/widgets.py:131 | within 0..100, the identity inside that range, 0 below and 100 above |
| Widgets.ProgressBarWithLabel.constructor | src/gui/widgets.py:90-121 | the bar is empty and the label reads "0%" |
| Widgets.ProgressBarWithLabel.SetProgress | src/gui/widgets.py:123-135 | the bar gets the clamped value; the label shows a non-empty text, or else the unclamped value as a percentage |
| Cli.ParseEach | src/cli/main.py:139-141 | succeeds exactly when every piece converts, giving one value per piece in order; an error names a piece |
| Cli.ParseCoords | src/cli/main.py:139-141 | every piece, stripped, must be an integer; the values in order |
| Cli.ParseCoordsNamesFirstFailure | src/cli/main.py:139-147 | the piece the error names is the first one that does not parse |
| Cli.ParseRegion | src/cli/main.py:135-147 | accepted exactly with four integer pieces, mapped to x, y, width and height in order; a count error reports the piece count |
| Cli.SelectTarget | src/cli/main.py:135-158 | without a non-empty --region the monitor; otherwise the parsed region or its error |
| Cli.CoordinateOfText | src/cli/main.py:139-141 | a printed integer has no comma and reads back as itself |
| Cli.RegionOfNumbers | src/cli/main.py:135-147 | any list of integers written with commas is a region exactly when there are four, in order and with any sign; any other count is refused with that count |
| Cli.CapturesChild | src/cli/main.py:122-128 | captures/name is relative, has the two components captures and name, and its name is name |
| Cli.NoOutputUsesGenerated | src/cli/main.py:111-114 | without an output, or with an empty one, the generated name is used |
| Cli.OutputFileMeaning | src/cli/main.py:111-128 | a relative path or an absolute path outside the captures directory becomes captures/its-name; any other path is kept |
| Cli.OutputFileIdempotent | src/cli/main.py:111-128 | normalising an already normalised output path changes nothing |

## Left out

- Threads: the capture loop is one iteration (`RecordingStep`). The
  encoding and audio threads are the drains `stop_recording` waits for. The
  join timeouts, the 0.1 s and 1 ms sleeps and every interleaving of the
  threads are not modelled.
- Recorder.VideoRecorder.ActiveStep: the stop when the duration is up is
  modelled as if `stop_recording` were called from another thread. In the
  source the recording thread calls it itself, and its join of that same
  thread raises RuntimeError before `finish_encoding` runs.
- Real time: the clock is a `now` parameter. The queue get timeouts
  (`timeout=0.1`, `0.01`) only bound waiting for a concurrent producer, which
  the sequential model does not have.
- External programs and libraries are inputs to the model: `mss` grabs,
  PyAudio's device table and stream, the ffmpeg processes with their exit
  codes and timeouts, and numpy's array conversions. Frames and chunks are
  byte sequences.
- Encoder.VideoEncoder.StartEncoding: `check_ffmpeg` becomes the
  `ffmpegAvailable` parameter. How `subprocess.Popen` fails to start is
  not modelled.
- Recorder.VideoRecorder.DrainFrames and DrainAudio: each drain has one pipe
  or write outcome for all its items. A pipe that breaks mid-drain is not
  modelled.
- Recorder.VideoRecorder.constructor: an `fps` of 0 is excluded by a
  precondition, because the source's `1.0 / fps` raises ZeroDivisionError
  there and nothing catches it.
- Recorder.VideoRecorder.StopRecording: the final logging and the 2 s and
  5 s join timeouts are not modelled.
- Sync.NextFrame compares entries by value (timestamp and bytes). The
  source's tuple comparison on numpy arrays is not modelled.
- Logging, `print` output and the exception messages' text are not
  modelled. Errors are datatype constructors.
- Widgets: the Tk drawing is not modelled. `Percent(value)` stands for the
  label text `f"{value:.1f}%"`, because float formatting is not modelled.
- Cli: argparse is not modelled, nor the progress percentage the CLI
  callback prints.
- Cli: `validate_output_path` (src/cli/main.py:130-133) and the output
  file-name generator live in src/utils/file_manager.py, which is not part
  of this model. The generated name is a parameter.
- Cli.OutputFile: the `mkdir` of the captures directory is not modelled.
- ConfigStore.Config.Save: the write always succeeds. When `mkdir`, `open`
  or `json.dump` raises OSError, the error escapes from `set`, `update` and
  `reset` (src/utils/config.py:81, 91, 97) after the in-memory dictionary
  has already changed. The model does not have that error path.
- Text.Lower: only ASCII 'A' to 'Z' are lowercased. Python's `str.lower`
  folds Unicode case too, so the name search of `NameMatches` and
  `FindDeviceByName`, the suffix check of `FixExtension` and the format
  check of `Configure` miss matches that differ in non-ASCII case, such as
  "MICRÓFONO" against "micrófono" or "m\u212Av" (with the Kelvin sign)
  against "mkv".
- Audio.FirstMatchIsFirst: the first device whose name contains the query under
  the ASCII-only `Text.Lower`. Device names that differ only in non-ASCII
  case do not match, where Python's `str.lower` makes them match.
- Audio.AudioCapture.FindDeviceByName: returns FirstMatch under the ASCII-only `Text.Lower`,
  so a Unicode case-insensitive match found by the source is missed.
- Encoder.FixExtensionSound: the suffix is compared after the ASCII-only
  `Text.Lower`. An extension that only Python's Unicode `lower()` turns
  into the format's (".m\u212Av" for mkv) is re-suffixed by the model and
  kept by the source.
- Encoder.Configure: the format is lowercased by the ASCII-only `Text.Lower`, so a
  format such as "m\u212Av", which Python accepts as mkv, is refused.
- Audio.AudioCapture.GetAudioDevices: after `close()` the source's
  `self.audio` is None and enumeration raises AttributeError. The model
  still lists the backend's devices; no caller in the core enumerates after
  closing.
- Text.ParseInt: accepts ASCII digits, with single underscores between
  them, after an optional sign and around Python's white space. Python's
  int() also accepts non-ASCII decimal digits; those are not modelled.
- Paths: only POSIX pathlib is modelled, without the special case of a
  leading double slash.
- ConfigStore: the JSON text, its `indent=2` layout and UTF-8 encoding are
  not modelled; the file is the dictionary it holds. A file whose top level
  is not an object counts as unreadable, and `mkdir` of the parent is not
  modelled.
- ConfigStore.Value: JSON numbers are split into integers and reals; the
  float precision of `json` is not modelled.
- Audio.AudioCapture.StartCapture: the thread that runs the capture loop is
  recorded as a mode. The loops are the separate methods CaptureToQueue and
  CaptureWithCallback, run on a given sequence of reads.
- Screen.ScreenCapture.CaptureToPil: the PIL image is modelled only as
  an image with three channels (`BgrxToRgb` gives its bytes). `capture_to_pil`
  with no display fails with an error, where the source raises an
  AttributeError on `None.grab`.

## Findings

| source | as written | input that shows it | evidently intended | confidence | as-written member | corrected member |
|---|---|---|---|---|---|---|
| src/core/recorder_manager.py:360-366 | while paused, elapsed is start_time - now - paused_time - (now - pause_start) | started at 100, paused at 105, asked at 110: -15 | the time recorded up to the pause: pause_start - start_time - paused_time = 5 | not executed | Recorder.PausedElapsedIsNegative | Recorder.PauseAwareElapsedContinuous |
| src/core/recorder_manager.py:129-168 | audio_capture is set only when audio is enabled and never cleared, and has_audio tests whether it exists | a session with enable_audio=True, stopped, then start_recording(enable_audio=False): the encoder still gets audio and the old capture reopens | audio only when enable_audio is set for this session | not executed | Recorder.StaleAudioCaptureKept | Recorder.AudioKept |
