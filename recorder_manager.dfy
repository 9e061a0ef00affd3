/** The recording session (src/core/recorder_manager.py): the start, pause,
    resume and stop guards, paused-time accounting, elapsed and remaining
    time, and one iteration of the capture loop. Clock readings are the
    `now` parameters; the threads become a step method for the capture loop
    and the drains that stop_recording waits for. */
module Recorder {
  import opened Common
  import opened Buffering
  import opened Screen
  import opened Sync
  import Audio
  import Encoder

  /** A capture rectangle (x, y, width, height), relative to the monitor. */
  datatype Region = Region(x: int, y: int, width: int, height: int)

  /** What start_recording lets escape. */
  datatype RecorderError =
    | ScreenFailed(screen: CaptureError)          // get_screen_size raised
    | EncoderFailed(encoder: Encoder.EncoderError) // VideoEncoder() or start_encoding raised
    | AudioFailed(audio: Audio.AudioError)        // start_capture raised

  /** The timing state of a session. */
  datatype Clock = Clock(isRecording: bool, isPaused: bool, startTime: Option<real>, pausedTime: real,
                         pauseStart: Option<real>, duration: Option<real>)

  /** Recording time up to `now` with the paused time taken out
      (the expression of the capture loop and of get_elapsed_time's last line). */
  function ActiveElapsed(k: Clock, now: real): real
    requires k.startTime.Some?
  {
    now - k.startTime.value - k.pausedTime
  }

  /** get_elapsed_time as written: while paused the start time and `now`
      enter with the wrong signs. */
  function ElapsedAsWritten(k: Clock, now: real): real
  {
    if !Truthy(k.startTime) then 0.0
    else if k.isPaused && Truthy(k.pauseStart) then
      k.startTime.value - now - k.pausedTime - (now - k.pauseStart.value)
    else now - k.startTime.value - k.pausedTime
  }

  /** The elapsed time get_elapsed_time evidently means: while paused, the
      recording time up to the moment of the pause. */
  function PauseAwareElapsed(k: Clock, now: real): real
  {
    if !Truthy(k.startTime) then 0.0
    else if k.isPaused && Truthy(k.pauseStart) then
      k.pauseStart.value - k.startTime.value - k.pausedTime
    else now - k.startTime.value - k.pausedTime
  }

  /** Stopping at a pause 5 s into a recording started at 100 and asking at
      110 gives -15 where 5 s were recorded. */
  lemma PausedElapsedIsNegative()
    ensures var k := Clock(true, true, Some(100.0), 0.0, Some(105.0), None);
      ElapsedAsWritten(k, 110.0) == -15.0 && PauseAwareElapsed(k, 110.0) == 5.0
  {
  }

  /** The corrected elapsed time stands still while paused, agrees with the
      running formula otherwise, and does not jump when pausing or resuming. */
  lemma PauseAwareElapsedContinuous(k: Clock, now: real, later: real)
    requires Truthy(k.startTime)
    ensures k.isPaused && Truthy(k.pauseStart) ==> PauseAwareElapsed(k, now) == PauseAwareElapsed(k, later)
    ensures !(k.isPaused && Truthy(k.pauseStart)) ==>
      PauseAwareElapsed(k, now) == ActiveElapsed(k, now) == ElapsedAsWritten(k, now)
    ensures k.isRecording && !k.isPaused && now != 0.0 ==>
      PauseAwareElapsed(PauseClock(k, now), later) == PauseAwareElapsed(k, now)
    ensures k.isRecording && k.isPaused && Truthy(k.pauseStart) ==>
      PauseAwareElapsed(ResumeClock(k, now), now) == PauseAwareElapsed(k, now)
  {
  }

  /** get_remaining_time, on the corrected elapsed time. */
  function Remaining(k: Clock, now: real): (r: Option<real>)
    ensures r.None? <==> !Truthy(k.duration)
    ensures r.Some? ==> r.value >= 0.0
    ensures r.Some? && PauseAwareElapsed(k, now) <= k.duration.value ==>
      r.value + PauseAwareElapsed(k, now) == k.duration.value
    ensures r.Some? && PauseAwareElapsed(k, now) >= k.duration.value ==> r.value == 0.0
  {
    if !Truthy(k.duration) then None
    else
      var remaining := k.duration.value - PauseAwareElapsed(k, now);
      Some(if 0.0 >= remaining then 0.0 else remaining)
  }

  /** pause_recording: only a running, unpaused session pauses. */
  function PauseClock(k: Clock, now: real): Clock
  {
    if k.isRecording && !k.isPaused then k.(isPaused := true, pauseStart := Some(now)) else k
  }

  /** resume_recording: only a paused session resumes; a truthy pause start
      is charged to the paused time and cleared. */
  function ResumeClock(k: Clock, now: real): Clock
  {
    if k.isRecording && k.isPaused then
      if Truthy(k.pauseStart) then
        k.(isPaused := false, pausedTime := k.pausedTime + (now - k.pauseStart.value), pauseStart := None)
      else k.(isPaused := false)
    else k
  }

  /** A pause at t1 followed by a resume at t2 charges exactly the pause
      to the paused time, so the recording time at t2 is the recording time
      at t1; the guards make a second pause or resume change nothing. */
  lemma PauseThenResume(k: Clock, t1: real, t2: real)
    requires k.isRecording && !k.isPaused && k.startTime.Some? && t1 != 0.0
    ensures ResumeClock(PauseClock(k, t1), t2) == k.(pausedTime := k.pausedTime + (t2 - t1), pauseStart := None)
    ensures ActiveElapsed(ResumeClock(PauseClock(k, t1), t2), t2) == ActiveElapsed(k, t1)
    ensures PauseClock(PauseClock(k, t1), t2) == PauseClock(k, t1)
    ensures ResumeClock(k, t2) == k
  {
  }

  /** The pause bookkeeping at the top of each capture-loop iteration: a
      paused session records when the pause began (if nobody did); a running
      one charges a pending pause and clears it. */
  function Advance(k: Clock, now: real): Clock
  {
    if k.isPaused then (if k.pauseStart.None? then k.(pauseStart := Some(now)) else k)
    else if k.pauseStart.Some? then k.(pausedTime := k.pausedTime + (now - k.pauseStart.value), pauseStart := None)
    else k
  }

  /** A resume already charged the pause, so the loop does not charge it a
      second time; a loop iteration that sees the session running leaves no
      pause pending. */
  lemma AdvanceAfterResume(k: Clock, t1: real, t2: real)
    requires k.isRecording && k.isPaused && Truthy(k.pauseStart)
    ensures Advance(ResumeClock(k, t1), t2) == ResumeClock(k, t1)
    ensures Advance(ResumeClock(k, t1), t2).pausedTime == k.pausedTime + (t1 - k.pauseStart.value)
    ensures !k.isPaused ==> Advance(k, t2).pauseStart.None?
  {
  }

  /** The duration cut-off of the loop: a truthy duration that the recording
      time has reached. */
  predicate DurationReached(k: Clock, now: real)
    requires k.startTime.Some?
  {
    Truthy(k.duration) && ActiveElapsed(k, now) >= k.duration.value
  }

  /** The pacing test: a frame is due once a frame time has passed since the
      last captured one. */
  predicate FrameDue(now: real, last: real, frameTime: real)
  {
    now - last >= frameTime
  }

  /** The instants at which a loop running at the given instants captures,
      when every grab succeeds. */
  function Captures(times: seq<real>, last: real, frameTime: real): seq<real>
    decreases |times|
  {
    if times == [] then []
    else if FrameDue(times[0], last, frameTime) then [times[0]] + Captures(times[1..], times[0], frameTime)
    else Captures(times[1..], last, frameTime)
  }

  /** Captured instants are loop instants, each at least a frame time after
      the previous capture (or after the initial reference). */
  lemma {:induction false} CapturesPaced(times: seq<real>, last: real, frameTime: real)
    ensures var c := Captures(times, last, frameTime);
      && |c| <= |times|
      && (forall i :: 0 <= i < |c| ==> c[i] in times)
      && (|c| > 0 ==> c[0] - last >= frameTime)
      && (forall i :: 0 < i < |c| ==> c[i] - c[i - 1] >= frameTime)
  {
    CapturesWithin(times, last, frameTime);
    CapturesGaps(times, last, frameTime);
  }

  lemma {:induction false} CapturesWithin(times: seq<real>, last: real, frameTime: real)
    ensures var c := Captures(times, last, frameTime);
      |c| <= |times| && forall i :: 0 <= i < |c| ==> c[i] in times
    decreases |times|
  {
    if times != [] {
      var rest := times[1..];
      var c := Captures(times, last, frameTime);
      var next := if FrameDue(times[0], last, frameTime) then times[0] else last;
      CapturesWithin(rest, next, frameTime);
      var t := Captures(rest, next, frameTime);
      assert c == (if FrameDue(times[0], last, frameTime) then [times[0]] + t else t);
      forall i | 0 <= i < |c| ensures c[i] in times {
        var k := if FrameDue(times[0], last, frameTime) then i - 1 else i;
        if k >= 0 {
          assert c[i] == t[k];
          var j :| 0 <= j < |rest| && rest[j] == t[k];
          assert times[j + 1] == rest[j];
        }
      }
    }
  }

  lemma {:induction false} CapturesGaps(times: seq<real>, last: real, frameTime: real)
    ensures var c := Captures(times, last, frameTime);
      && (|c| > 0 ==> c[0] - last >= frameTime)
      && (forall i :: 0 < i < |c| ==> c[i] - c[i - 1] >= frameTime)
    decreases |times|
  {
    if times != [] {
      var rest := times[1..];
      if FrameDue(times[0], last, frameTime) {
        CapturesGaps(rest, times[0], frameTime);
        var c := Captures(times, last, frameTime);
        var t := Captures(rest, times[0], frameTime);
        assert c == [times[0]] + t;
        forall i | 0 < i < |c| ensures c[i] - c[i - 1] >= frameTime {
          if i > 1 {
            assert c[i] == t[i - 1] && c[i - 1] == t[i - 2];
          }
        }
      } else {
        CapturesGaps(rest, last, frameTime);
      }
    }
  }

  /** At most one frame per frame time: over loop instants no later than
      `horizon`, the captures fit in the span since the initial reference. */
  lemma {:induction false} CapturesRate(times: seq<real>, last: real, frameTime: real, horizon: real)
    requires frameTime > 0.0 && last <= horizon
    requires forall i :: 0 <= i < |times| ==> times[i] <= horizon
    ensures |Captures(times, last, frameTime)| as real * frameTime <= horizon - last
    decreases |times|
  {
    if times != [] {
      var rest := times[1..];
      assert forall i :: 0 <= i < |rest| ==> rest[i] <= horizon by {
        forall i | 0 <= i < |rest| ensures rest[i] <= horizon {
          assert rest[i] == times[i + 1];
        }
      }
      if FrameDue(times[0], last, frameTime) {
        CapturesRate(rest, times[0], frameTime, horizon);
        var n := |Captures(rest, times[0], frameTime)|;
        assert |Captures(times, last, frameTime)| == n + 1;
        assert (n + 1) as real * frameTime == n as real * frameTime + frameTime;
      } else {
        CapturesRate(rest, last, frameTime, horizon);
      }
    }
  }

  /** The progress callback's arguments. */
  datatype Progress = Progress(elapsed: real, remaining: Option<real>, frames: int, audioMb: real)

  /** The report of an iteration that did not stop: its remaining time is
      only present for a truthy duration and then still positive. */
  function Report(k: Clock, now: real, frames: int, audioMb: real): (p: Progress)
    requires k.startTime.Some? && !DurationReached(k, now)
    ensures p.elapsed == ActiveElapsed(k, now)
    ensures p.remaining.Some? <==> Truthy(k.duration)
    ensures p.remaining.Some? ==> p.remaining.value > 0.0 && p.remaining.value + p.elapsed == k.duration.value
  {
    var elapsed := ActiveElapsed(k, now);
    Progress(elapsed, if Truthy(k.duration) then Some(k.duration.value - elapsed) else None, frames, audioMb)
  }

  /** Whether start_recording keeps an audio capture, as written: without
      enable_audio the capture of an earlier session is left in place. */
  function AudioKeptAsWritten(enableAudio: bool, hadCapture: bool, initOk: bool, devicesFound: bool): bool
  {
    if enableAudio then initOk && devicesFound else hadCapture
  }

  /** A second session started with audio disabled still records audio when
      the first one had it. */
  lemma StaleAudioCaptureKept()
    ensures AudioKeptAsWritten(false, true, true, true)
  {
  }

  /** The evidently intended decision: audio only when asked for and
      available. */
  function AudioKept(enableAudio: bool, initOk: bool, devicesFound: bool): (kept: bool)
    ensures kept ==> enableAudio
    ensures forall hadCapture: bool :: enableAudio || !hadCapture ==>
      kept == AudioKeptAsWritten(enableAudio, hadCapture, initOk, devicesFound)
  {
    enableAudio && initOk && devicesFound
  }

  /** The payloads of queued entries, in order. */
  function Payloads(items: seq<Entry>): (r: seq<Bytes>)
    ensures |r| == |items|
    ensures forall i :: 0 <= i < |items| ==> r[i] == items[i].payload
  {
    if items == [] then [] else Payloads(items[..|items| - 1]) + [items[|items| - 1].payload]
  }

  /** Writing one more queued chunk extends the run of writes by its payload. */
  lemma WrittenAllStep(s: Encoder.Session, fs: Encoder.FileSystem, items: seq<Entry>, i: nat, writeOk: bool)
    requires i < |items|
    ensures Encoder.AudioWrittenAll(s, fs, Payloads(items[..i + 1]), writeOk)
         == Encoder.AudioWritten(s, Encoder.AudioWrittenAll(s, fs, Payloads(items[..i]), writeOk), items[i].payload, writeOk)
  {
    assert items[..i + 1][..i] == items[..i];
    var chunks := Payloads(items[..i + 1]);
    assert chunks[..|chunks| - 1] == Payloads(items[..i]);
  }

  /** What one capture-loop iteration did. */
  datatype StepOutcome =
    | Exited                                                   // the loop condition failed
    | Waiting                                                  // paused
    | Stopped(output: Option<Result<string, Encoder.EncoderError>>) // the duration was reached
    | Continued(captured: bool, report: Option<Progress>)

  class VideoRecorder {
    const fps: int
    const frameTime: real
    const screen: ScreenCapture
    const frameBuffer: FrameBuffer
    const audioBuffer: AudioBuffer
    const syncManager: SyncManager
    var audioCapture: Audio.AudioCapture?
    var videoEncoder: Encoder.VideoEncoder?
    var isRecording: bool
    var isPaused: bool
    var duration: Option<real>
    var startTime: Option<real>
    var pausedTime: real
    var pauseStart: Option<real>
    var hasProgressCallback: bool
    var framesCaptured: int
    var region: Option<Region>
    var monitorIndex: int
    /** The `_audio_device_index` attribute: None until it is first set. */
    var audioDeviceIndex: Option<Option<int>>

    /** The timing fields as one value. */
    function Timing(): Clock
      reads this
    {
      Clock(isRecording, isPaused, startTime, pausedTime, pauseStart, duration)
    }

    /** What a capture-loop iteration that does not stop leaves alone: the
        audio buffer, the encoder and the audio capture (which belong to
        the other threads), and the configuration of the recorder. */
    twostate predicate StepFrame()
      reads this, audioBuffer, videoEncoder, audioCapture
    {
      && unchanged(audioBuffer)
      && videoEncoder == old(videoEncoder) && audioCapture == old(audioCapture)
      && (videoEncoder != null ==> unchanged(videoEncoder))
      && (audioCapture != null ==> unchanged(audioCapture))
      && unchanged(this`hasProgressCallback, this`region, this`monitorIndex, this`audioDeviceIndex)
    }

    ghost predicate Valid()
      reads this, frameBuffer, audioBuffer, syncManager
    {
      && frameBuffer.Valid() && audioBuffer.Valid()
      && syncManager.frameBuffer == frameBuffer && syncManager.audioBuffer == audioBuffer
      && (isRecording ==> startTime.Some? && videoEncoder != null)
      && (videoEncoder != null ==> Encoder.ValidConfig(videoEncoder.config))
    }

    /** `screenBackend` is what the screen grabber finds: the monitors of a
        display, or None when there is none. */
    constructor (screenBackend: Option<seq<Monitor>>, fps: int := 30)
      requires fps != 0
      ensures Valid() && fresh(frameBuffer) && fresh(audioBuffer) && fresh(syncManager)
      ensures this.fps == fps && frameTime == 1.0 / (fps as real)
      ensures screen.hasDisplay == screenBackend.Some?
      ensures frameBuffer.State() == BufferState([], 100, 0, 0)
      ensures audioBuffer.State() == BufferState([], 200, 0, 0)
      ensures syncManager.startTime == None
      ensures Timing() == Clock(false, false, None, 0.0, None, None)
      ensures audioCapture == null && videoEncoder == null && !hasProgressCallback
      ensures framesCaptured == 0 && region == None && monitorIndex == 1 && audioDeviceIndex == None
    {
      this.fps := fps;
      frameTime := 1.0 / (fps as real);
      screen := new ScreenCapture(screenBackend);
      var frames := new FrameBuffer(100);
      var audio := new AudioBuffer(200);
      frameBuffer := frames;
      audioBuffer := audio;
      syncManager := new SyncManager(frames, audio);
      audioCapture := null;
      videoEncoder := null;
      isRecording := false;
      isPaused := false;
      duration := None;
      startTime := None;
      pausedTime := 0.0;
      pauseStart := None;
      hasProgressCallback := false;
      framesCaptured := 0;
      region := None;
      monitorIndex := 1;
      audioDeviceIndex := None;
    }

    /** set_screen_region: only the region changes. */
    method SetScreenRegion(region: Option<Region>)
      modifies this`region
      ensures this.region == region
      ensures Timing() == old(Timing()) && monitorIndex == old(monitorIndex)
    {
      this.region := region;
    }

    /** set_monitor: only the monitor index changes. */
    method SetMonitor(monitorIndex: int)
      modifies this`monitorIndex
      ensures this.monitorIndex == monitorIndex
      ensures Timing() == old(Timing()) && region == old(region)
    {
      this.monitorIndex := monitorIndex;
    }

    /** set_progress_callback: `registered` says whether the callback given
        is truthy (a function) or None; only that flag changes. */
    method SetProgressCallback(registered: bool)
      modifies this`hasProgressCallback
      ensures hasProgressCallback == registered
      ensures Timing() == old(Timing()) && region == old(region) && monitorIndex == old(monitorIndex)
    {
      hasProgressCallback := registered;
    }

    /** The video size: the region's, or the selected monitor's. */
    function VideoSize(): Result<(int, int), CaptureError>
      reads this
    {
      if region.Some? then Ok((region.value.width, region.value.height)) else screen.GetScreenSize(monitorIndex)
    }

    /** The audio size the progress callback gets: the captured megabytes,
        or 0.0 without an audio capture. */
    function AudioMb(): real
      reads this, audioCapture
    {
      if audioCapture != null then audioCapture.GetCapturedSizeMb() else 0.0
    }

    /** One frame from the region or from the whole selected monitor. */
    function Grab(grab: Rect -> Option<Image>): Result<Image, CaptureError>
      reads this
    {
      if region.Some? then
        screen.CaptureRegion(region.value.x, region.value.y, region.value.width, region.value.height, monitorIndex, grab)
      else screen.CaptureFullScreen(monitorIndex, grab)
    }

    /** The audio part of start_recording when audio is enabled: `initOk` is
        whether creating the PyAudio capture succeeds. */
    method SetUpAudio(backend: Audio.AudioBackend, initOk: bool, deviceIndex: Option<int>,
                      sampleRate: int, channels: int)
      modifies this
      ensures audioCapture != null <==> initOk && Audio.InputDevices(backend.infos) != []
      ensures audioCapture != null ==>
        && fresh(audioCapture) && audioCapture.backend == backend
        && audioCapture.sampleRate == sampleRate && audioCapture.channels == channels
        && !audioCapture.isRecording && audioDeviceIndex == Some(deviceIndex)
      ensures audioCapture == null ==> audioDeviceIndex == old(audioDeviceIndex)
      ensures Timing() == old(Timing()) && videoEncoder == old(videoEncoder) && framesCaptured == old(framesCaptured)
      ensures region == old(region) && monitorIndex == old(monitorIndex)
    {
      if !initOk {
        audioCapture := null;
        return;
      }
      var capture := new Audio.AudioCapture(backend, sampleRate, channels);
      audioCapture := capture;
      var devices := capture.GetAudioDevices();
      if devices == [] {
        audioCapture := null;
      } else {
        audioDeviceIndex := Some(deviceIndex);
      }
    }

    /** The audio decision of start_recording: a fresh capture when audio is
        enabled and usable, and no capture otherwise. */
    method ChooseAudio(enableAudio: bool, backend: Audio.AudioBackend, initOk: bool, deviceIndex: Option<int>,
                       sampleRate: int, channels: int)
      modifies this
      ensures audioCapture != null <==> AudioKept(enableAudio, initOk, Audio.InputDevices(backend.infos) != [])
      ensures audioCapture != null ==> fresh(audioCapture) && !audioCapture.isRecording
      ensures Timing() == old(Timing()) && videoEncoder == old(videoEncoder) && framesCaptured == old(framesCaptured)
      ensures region == old(region) && monitorIndex == old(monitorIndex)
    {
      if enableAudio {
        SetUpAudio(backend, initOk, deviceIndex, sampleRate, channels);
      } else {
        // corrected: a capture left from an earlier session is not reused
        audioCapture := null;
      }
    }

    /** What start_recording has set up once start_encoding returned: the
        checked encoder, running, with audio exactly when an audio capture
        is kept, and the 44100 Hz stereo defaults otherwise. */
    ghost predicate EncoderStarted(config: Encoder.EncoderConfig, kept: bool, sampleRate: int, audioChannels: int)
      reads this, videoEncoder
    {
      && videoEncoder != null && videoEncoder.config == config && Encoder.ValidConfig(config)
      && videoEncoder.encoding
      && (audioCapture != null <==> kept)
      && videoEncoder.hasAudio == kept
      && videoEncoder.audioSampleRate == (if kept then sampleRate else 44100)
      && videoEncoder.audioChannels == (if kept then audioChannels else 2)
      && videoEncoder.process ==
           Some(Encoder.Process(Encoder.EncodeArgs(config, "pipe:", None, kept, videoEncoder.audioSampleRate,
                                                   videoEncoder.audioChannels), true, []))
    }

    /** start_recording. The first parameters stand for what the
        environment does: the clock, the audio backend, whether PyAudio
        initialises, whether ffmpeg is installed, whether the audio stream
        opens, the scratch audio file name and the file system. */
    method StartRecording(now: real, audioBackend: Audio.AudioBackend, audioInitOk: bool, ffmpegAvailable: bool,
                          openOk: bool, scratchPath: string, fs: Encoder.FileSystem,
                          duration: Option<real> := None, outputPath: string := "grabacion.mp4",
                          format: string := "mp4", quality: string := "Alta", enableAudio: bool := false,
                          audioDeviceIndex: Option<int> := None, sampleRate: int := 44100,
                          audioChannels: int := 2)
      returns (err: Option<RecorderError>, fs': Encoder.FileSystem)
      requires Valid()
      modifies this, syncManager, audioCapture
      ensures Valid()
      ensures old(isRecording) ==>
        && err == None && fs' == fs && Timing() == old(Timing())
        && videoEncoder == old(videoEncoder) && audioCapture == old(audioCapture)
      ensures !old(isRecording) && old(VideoSize()).Err? ==>
        err == Some(ScreenFailed(old(VideoSize()).error)) && fs' == fs && Timing() == old(Timing())
      ensures !old(isRecording) && old(VideoSize()).Ok? ==>
        var size := old(VideoSize()).value;
        var configured := Encoder.Configure(outputPath, size.0, size.1, fps, format, quality);
        && (configured.Err? ==> err == Some(EncoderFailed(configured.error)) && fs' == fs && Timing() == old(Timing()))
        && (configured.Ok? && !ffmpegAvailable ==>
              err == Some(EncoderFailed(Encoder.FfmpegMissing)) && fs' == fs && Timing() == old(Timing()))
        && (configured.Ok? && ffmpegAvailable ==>
              && fresh(videoEncoder)
              && EncoderStarted(configured.value,
                                AudioKept(enableAudio, audioInitOk, Audio.InputDevices(audioBackend.infos) != []),
                                sampleRate, audioChannels)
              && Timing() == old(Timing()).(isRecording := true, isPaused := false, duration := duration,
                                            startTime := Some(now), pausedTime := 0.0)
              && framesCaptured == 0)
      ensures err.None? && !old(isRecording) ==>
        && syncManager.startTime == Some(now)
        && (audioCapture != null && this.audioDeviceIndex.Some? ==>
              audioCapture.isRecording && audioCapture.mode == Audio.CallbackMode)
      ensures err.Some? && err.value.AudioFailed? ==> isRecording && audioCapture != null && !audioCapture.isRecording
      ensures frameBuffer.State() == old(frameBuffer.State()) && audioBuffer.State() == old(audioBuffer.State())
    {
      fs' := fs;
      if isRecording {
        return None, fs';
      }
      var size := VideoSize();
      if size.Err? {
        return Some(ScreenFailed(size.error)), fs';
      }
      var started;
      started, fs' := PrepareEncoder(size.value, audioBackend, audioInitOk, ffmpegAvailable, scratchPath, fs,
                                     outputPath, format, quality, enableAudio, audioDeviceIndex,
                                     sampleRate, audioChannels);
      if started.Some? {
        return Some(EncoderFailed(started.value)), fs';
      }
      err := BeginSession(now, openOk, duration);
    }

    /** The middle of start_recording: the encoder, the audio capture when
        audio is enabled, and start_encoding. */
    method PrepareEncoder(size: (int, int), audioBackend: Audio.AudioBackend, audioInitOk: bool,
                          ffmpegAvailable: bool, scratchPath: string, fs: Encoder.FileSystem,
                          outputPath: string, format: string, quality: string, enableAudio: bool,
                          audioDeviceIndex: Option<int>, sampleRate: int, audioChannels: int)
      returns (err: Option<Encoder.EncoderError>, fs': Encoder.FileSystem)
      requires Valid()
      modifies this
      ensures Valid()
      ensures Timing() == old(Timing()) && framesCaptured == old(framesCaptured)
      ensures region == old(region) && monitorIndex == old(monitorIndex)
      ensures audioCapture == old(audioCapture) || audioCapture == null || fresh(audioCapture)
      ensures audioCapture != null ==> !audioCapture.isRecording || audioCapture == old(audioCapture)
      ensures var configured := Encoder.Configure(outputPath, size.0, size.1, fps, format, quality);
        && (configured.Err? ==> err == Some(configured.error) && fs' == fs)
        && (configured.Ok? && !ffmpegAvailable ==> err == Some(Encoder.FfmpegMissing) && fs' == fs)
        && (configured.Ok? && ffmpegAvailable ==>
              && err == None && fresh(videoEncoder)
              && EncoderStarted(configured.value,
                                AudioKept(enableAudio, audioInitOk, Audio.InputDevices(audioBackend.infos) != []),
                                sampleRate, audioChannels))
    {
      fs' := fs;
      var created := Encoder.VideoEncoder.Create(outputPath, size.0, size.1, fps, format, quality);
      if created.Err? {
        return Some(created.error), fs';
      }
      var encoder := created.value;
      videoEncoder := encoder;
      ChooseAudio(enableAudio, audioBackend, audioInitOk, audioDeviceIndex, sampleRate, audioChannels);
      var hasAudio := audioCapture != null;
      var rate := if hasAudio then sampleRate else 44100;
      var channels := if hasAudio then audioChannels else 2;
      err, fs' := encoder.StartEncoding(ffmpegAvailable, "pipe:", None, hasAudio, rate, channels, scratchPath, fs);
    }

    /** The end of start_recording, once the encoder runs: the session
        flags, the audio stream with the callback, and the sync clock. */
    method BeginSession(now: real, openOk: bool, duration: Option<real>) returns (err: Option<RecorderError>)
      requires Valid() && videoEncoder != null
      modifies this, syncManager, audioCapture
      ensures Valid()
      ensures videoEncoder == old(videoEncoder) && audioCapture == old(audioCapture)
      ensures audioDeviceIndex == old(audioDeviceIndex) && region == old(region) && monitorIndex == old(monitorIndex)
      ensures Timing() == old(Timing()).(isRecording := true, isPaused := false, duration := duration,
                                         startTime := Some(now), pausedTime := 0.0)
      ensures framesCaptured == 0
      ensures (audioCapture == null || audioDeviceIndex.None?) ==> err == None
      ensures err.Some? ==> err.value.AudioFailed? && audioCapture != null && !audioCapture.isRecording
      ensures err.None? ==>
        && syncManager.startTime == Some(now)
        && (audioCapture != null && audioDeviceIndex.Some? ==>
              audioCapture.isRecording && audioCapture.mode == Audio.CallbackMode)
    {
      MarkStarted(now, duration);
      var failed := StartAudio(openOk);
      if failed.Some? {
        return Some(AudioFailed(failed.value));
      }
      syncManager.Start(now);
      err := None;
    }

    /** The session flags of start_recording: running, not paused, timed
        from `now` with no pause charged and no frame counted. */
    method MarkStarted(now: real, duration: Option<real>)
      modifies this`isRecording, this`isPaused, this`duration, this`startTime, this`pausedTime, this`framesCaptured
      ensures Timing() == old(Timing()).(isRecording := true, isPaused := false, duration := duration,
                                         startTime := Some(now), pausedTime := 0.0)
      ensures framesCaptured == 0
    {
      isRecording := true;
      isPaused := false;
      this.duration := duration;
      startTime := Some(now);
      pausedTime := 0.0;
      framesCaptured := 0;
    }

    /** The audio stream of start_recording: a capture left recording is
        stopped first, then the stream opens with the callback. */
    method StartAudio(openOk: bool) returns (err: Option<Audio.AudioError>)
      modifies audioCapture
      ensures audioCapture == null || audioDeviceIndex.None? ==> err == None
      ensures err.Some? ==> audioCapture != null && !audioCapture.isRecording
      ensures err.None? && audioCapture != null && audioDeviceIndex.Some? ==>
        audioCapture.isRecording && audioCapture.mode == Audio.CallbackMode
    {
      err := None;
      var capture := audioCapture;
      if capture != null && audioDeviceIndex.Some? {
        if capture.isRecording {
          capture.StopCapture();
        }
        err := capture.StartCapture(audioDeviceIndex.value, true, openOk);
      }
    }

    /** The callback handed to the audio stream: a chunk is queued, stamped
        with the recording time, while recording and not paused. */
    method AudioCallback(data: Bytes, now: real)
      requires Valid()
      modifies audioBuffer
      ensures Valid()
      ensures isRecording && !isPaused ==>
        audioBuffer.State() == Offer(old(audioBuffer.State()), Entry(data, ActiveElapsed(Timing(), now)))
      ensures !(isRecording && !isPaused) ==> audioBuffer.State() == old(audioBuffer.State())
    {
      if isRecording && !isPaused {
        audioBuffer.Put(data, now - startTime.value - pausedTime);
      }
    }

    method PauseRecording(now: real)
      modifies this
      ensures Timing() == PauseClock(old(Timing()), now)
      ensures framesCaptured == old(framesCaptured) && videoEncoder == old(videoEncoder)
      ensures audioCapture == old(audioCapture) && region == old(region)
    {
      if isRecording && !isPaused {
        isPaused := true;
        pauseStart := Some(now);
      }
    }

    method ResumeRecording(now: real)
      modifies this
      ensures Timing() == ResumeClock(old(Timing()), now)
      ensures framesCaptured == old(framesCaptured) && videoEncoder == old(videoEncoder)
      ensures audioCapture == old(audioCapture) && region == old(region)
    {
      if isRecording && isPaused {
        isPaused := false;
        if pauseStart.Some? && pauseStart.value != 0.0 {
          pausedTime := pausedTime + (now - pauseStart.value);
          pauseStart := None;
        }
      }
    }

    /** get_elapsed_time with its paused branch corrected: while paused, the
        time recorded up to the pause. */
    method GetElapsedTime(now: real) returns (e: real)
      ensures e == PauseAwareElapsed(Timing(), now)
    {
      if !Truthy(startTime) {
        return 0.0;
      }
      if isPaused && Truthy(pauseStart) {
        return pauseStart.value - startTime.value - pausedTime;
      }
      e := now - startTime.value - pausedTime;
    }

    method GetRemainingTime(now: real) returns (r: Option<real>)
      ensures r == Remaining(Timing(), now)
    {
      if !Truthy(duration) {
        return None;
      }
      var elapsed := GetElapsedTime(now);
      var remaining := duration.value - elapsed;
      r := Some(if 0.0 >= remaining then 0.0 else remaining);
    }

    /** The encoding thread's work once recording has stopped: every queued
        frame goes to write_frame, oldest first. */
    method DrainFrames(pipeOk: bool)
      requires Valid() && videoEncoder != null
      modifies frameBuffer, videoEncoder
      ensures Valid()
      ensures frameBuffer.State() == old(frameBuffer.State()).(items := [])
      ensures videoEncoder.State() == Encoder.SendFrames(old(videoEncoder.State()), Payloads(old(frameBuffer.buffer)), pipeOk)
    {
      ghost var items := frameBuffer.buffer;
      var encoder := videoEncoder;
      var i := 0;
      while frameBuffer.buffer != []
        invariant Valid() && encoder == videoEncoder
        invariant 0 <= i <= |items| && frameBuffer.buffer == items[i..]
        invariant frameBuffer.State() == old(frameBuffer.State()).(items := items[i..])
        invariant encoder.State() == Encoder.SendFrames(old(encoder.State()), Payloads(items[..i]), pipeOk)
        decreases |frameBuffer.buffer|
      {
        var next := frameBuffer.Get(0.1);
        assert items[..i + 1] == items[..i] + [next.value];
        assert Payloads(items[..i + 1]) == Payloads(items[..i]) + [next.value.payload];
        encoder.WriteFrame(next.value.payload, pipeOk);
        i := i + 1;
      }
      assert items[..i] == items;
    }

    /** The audio thread's work once recording has stopped: while paused it
        only waits (and the join gives up on it); otherwise every queued
        chunk goes to write_audio, oldest first. */
    method DrainAudio(writeOk: bool, fs: Encoder.FileSystem) returns (fs': Encoder.FileSystem)
      requires Valid() && videoEncoder != null
      modifies audioBuffer
      ensures Valid()
      ensures isPaused ==> audioBuffer.State() == old(audioBuffer.State()) && fs' == fs
      ensures !isPaused ==>
        && audioBuffer.State() == old(audioBuffer.State()).(items := [])
        && fs' == Encoder.AudioWrittenAll(videoEncoder.State(), fs, Payloads(old(audioBuffer.buffer)), writeOk)
    {
      fs' := fs;
      if isPaused {
        return;
      }
      ghost var items := audioBuffer.buffer;
      var i := 0;
      while audioBuffer.buffer != []
        invariant audioBuffer.Valid()
        invariant 0 <= i <= |items| && audioBuffer.buffer == items[i..]
        invariant audioBuffer.State() == old(audioBuffer.State()).(items := items[i..])
        invariant fs' == Encoder.AudioWrittenAll(videoEncoder.State(), fs, Payloads(items[..i]), writeOk)
        decreases |audioBuffer.buffer|
      {
        var next := audioBuffer.Get(0.1);
        WrittenAllStep(videoEncoder.State(), fs, items, i, writeOk);
        fs' := videoEncoder.WriteAudio(next.value.payload, writeOk, fs');
        i := i + 1;
      }
      assert items[..i] == items;
    }

    /** stop_recording: `pipeOk` and `writeOk` are how the last frame and
        audio writes go, `exit` and `mux` what the ffmpeg processes report. */
    method StopRecording(exit: Encoder.EncoderExit, mux: seq<string> -> Encoder.RunResult, pipeOk: bool,
                         writeOk: bool, fs: Encoder.FileSystem)
      returns (r: Option<Result<string, Encoder.EncoderError>>, fs': Encoder.FileSystem)
      requires Valid()
      modifies this, frameBuffer, audioBuffer, videoEncoder, audioCapture
      ensures Valid()
      ensures videoEncoder == old(videoEncoder) && audioCapture == old(audioCapture)
      ensures framesCaptured == old(framesCaptured) && region == old(region) && monitorIndex == old(monitorIndex)
      ensures hasProgressCallback == old(hasProgressCallback) && audioDeviceIndex == old(audioDeviceIndex)
      ensures audioCapture != null ==> audioCapture.audioOpen == old(audioCapture.audioOpen)
      ensures !old(isRecording) ==>
        && r == None && fs' == fs && Timing() == old(Timing())
        && frameBuffer.State() == old(frameBuffer.State()) && audioBuffer.State() == old(audioBuffer.State())
      ensures old(isRecording) ==>
        && Timing() == old(Timing()).(isRecording := false)
        && frameBuffer.State() == old(frameBuffer.State()).(items := [])
        && (audioCapture != null && !isPaused ==> audioBuffer.State() == old(audioBuffer.State()).(items := []))
        && (audioCapture == null || isPaused ==> audioBuffer.State() == old(audioBuffer.State()))
        && (audioCapture != null ==> !audioCapture.isRecording && audioCapture.stream.None?)
        && videoEncoder != null && r.Some?
        && var sent := Encoder.SendFrames(old(videoEncoder.State()), Payloads(old(frameBuffer.buffer)), pipeOk);
           var files := if audioCapture != null && !isPaused
                        then Encoder.AudioWrittenAll(sent, fs, Payloads(old(audioBuffer.buffer)), writeOk) else fs;
           (r.value, videoEncoder.State(), fs') == Encoder.Finish(videoEncoder.config, sent, exit, mux, files)
    {
      fs' := fs;
      if !isRecording {
        return None, fs';
      }
      isRecording := false;
      var encoder := videoEncoder;
      DrainFrames(pipeOk);
      var capture := audioCapture;
      if capture != null {
        fs' := DrainAudio(writeOk, fs');
        capture.StopCapture();
      }
      var output;
      output, fs' := encoder.FinishEncoding(exit, mux, fs');
      r := Some(output);
    }

    /** One iteration of the capture loop. `last` is the time of the last
        captured frame; `grab` what the screen grabber returns; the other
        parameters are passed to stop_recording when the duration is up. */
    method RecordingStep(now: real, last: real, grab: Rect -> Option<Image>, exit: Encoder.EncoderExit,
                         mux: seq<string> -> Encoder.RunResult, pipeOk: bool, writeOk: bool,
                         fs: Encoder.FileSystem)
      returns (outcome: StepOutcome, last': real, fs': Encoder.FileSystem)
      requires Valid()
      modifies this, frameBuffer, audioBuffer, videoEncoder, audioCapture
      ensures Valid()
      ensures !old(isRecording) ==>
        && outcome == Exited && last' == last && fs' == fs && Timing() == old(Timing())
        && frameBuffer.State() == old(frameBuffer.State()) && framesCaptured == old(framesCaptured)
        && StepFrame()
      ensures old(isRecording) && old(isPaused) ==>
        && outcome == Waiting && last' == last && fs' == fs && Timing() == Advance(old(Timing()), now)
        && frameBuffer.State() == old(frameBuffer.State()) && framesCaptured == old(framesCaptured)
        && StepFrame()
      ensures old(isRecording) && !old(isPaused) ==>
        var k := Advance(old(Timing()), now);
        var elapsed := ActiveElapsed(k, now);
        && (DurationReached(k, now) ==>
              && outcome.Stopped? && outcome.output.Some? && Timing() == k.(isRecording := false)
              && frameBuffer.buffer == [] && framesCaptured == old(framesCaptured)
              && videoEncoder == old(videoEncoder) && audioCapture == old(audioCapture)
              && unchanged(this`hasProgressCallback, this`region, this`monitorIndex, this`audioDeviceIndex))
        && (!DurationReached(k, now) ==>
              && Timing() == k && fs' == fs && outcome.Continued? && StepFrame()
              && (outcome.report.Some? <==> hasProgressCallback)
              && (outcome.report.Some? ==> outcome.report.value == Report(k, now, framesCaptured, AudioMb()))
              && (outcome.captured <==> FrameDue(now, last, frameTime) && old(Grab(grab)).Ok?)
              && (outcome.captured ==>
                    && frameBuffer.State() == Offer(old(frameBuffer.State()), Entry(old(Grab(grab)).value.data, elapsed))
                    && framesCaptured == old(framesCaptured) + 1 && last' == now)
              && (!outcome.captured ==>
                    frameBuffer.State() == old(frameBuffer.State()) && framesCaptured == old(framesCaptured)
                    && last' == last))
    {
      last' := last;
      fs' := fs;
      if !isRecording {
        return Exited, last', fs';
      }
      if isPaused {
        if pauseStart.None? {
          pauseStart := Some(now);
        }
        return Waiting, last', fs';
      }
      if pauseStart.Some? {
        pausedTime := pausedTime + (now - pauseStart.value);
        pauseStart := None;
      }
      outcome, last', fs' := ActiveStep(now, last, grab, exit, mux, pipeOk, writeOk, fs);
    }

    /** The running part of a loop iteration, once a pending pause has been
        charged: stop when the duration is up, otherwise capture when due and
        report progress. */
    method ActiveStep(now: real, last: real, grab: Rect -> Option<Image>, exit: Encoder.EncoderExit,
                      mux: seq<string> -> Encoder.RunResult, pipeOk: bool, writeOk: bool,
                      fs: Encoder.FileSystem)
      returns (outcome: StepOutcome, last': real, fs': Encoder.FileSystem)
      requires Valid() && isRecording && !isPaused && pauseStart.None?
      modifies this, frameBuffer, audioBuffer, videoEncoder, audioCapture
      ensures Valid()
      ensures var k := old(Timing());
        var elapsed := ActiveElapsed(k, now);
        && (DurationReached(k, now) ==>
              && outcome.Stopped? && outcome.output.Some? && Timing() == k.(isRecording := false)
              && frameBuffer.buffer == [] && framesCaptured == old(framesCaptured)
              && videoEncoder == old(videoEncoder) && audioCapture == old(audioCapture)
              && unchanged(this`hasProgressCallback, this`region, this`monitorIndex, this`audioDeviceIndex))
        && (!DurationReached(k, now) ==>
              && Timing() == k && fs' == fs && outcome.Continued? && StepFrame()
              && (outcome.report.Some? <==> hasProgressCallback)
              && (outcome.report.Some? ==> outcome.report.value == Report(k, now, framesCaptured, AudioMb()))
              && (outcome.captured <==> FrameDue(now, last, frameTime) && old(Grab(grab)).Ok?)
              && (outcome.captured ==>
                    && frameBuffer.State() == Offer(old(frameBuffer.State()), Entry(old(Grab(grab)).value.data, elapsed))
                    && framesCaptured == old(framesCaptured) + 1 && last' == now)
              && (!outcome.captured ==>
                    frameBuffer.State() == old(frameBuffer.State()) && framesCaptured == old(framesCaptured)
                    && last' == last))
    {
      last' := last;
      fs' := fs;
      var elapsed := now - startTime.value - pausedTime;
      if Truthy(duration) && elapsed >= duration.value {
        var output;
        output, fs' := StopRecording(exit, mux, pipeOk, writeOk, fs);
        return Stopped(output), last', fs';
      }
      var captured;
      captured, last' := CaptureIfDue(now, last, grab, elapsed);
      var report := None;
      if hasProgressCallback {
        var remaining := if Truthy(duration) then Some(duration.value - elapsed) else None;
        var audioMb := if audioCapture != null then audioCapture.GetCapturedSizeMb() else 0.0;
        report := Some(Progress(elapsed, remaining, framesCaptured, audioMb));
        assert report.value == Report(Timing(), now, framesCaptured, AudioMb());
      }
      outcome := Continued(captured, report);
    }

    /** The capture block of the loop: when a frame time has passed and the
        grab succeeds, the frame is queued at `elapsed` and counted. */
    method CaptureIfDue(now: real, last: real, grab: Rect -> Option<Image>, elapsed: real)
      returns (captured: bool, last': real)
      requires frameBuffer.Valid()
      modifies this`framesCaptured, frameBuffer
      ensures frameBuffer.Valid()
      ensures captured <==> FrameDue(now, last, frameTime) && Grab(grab).Ok?
      ensures captured ==>
        && frameBuffer.State() == Offer(old(frameBuffer.State()), Entry(Grab(grab).value.data, elapsed))
        && framesCaptured == old(framesCaptured) + 1 && last' == now
      ensures !captured ==>
        frameBuffer.State() == old(frameBuffer.State()) && framesCaptured == old(framesCaptured) && last' == last
    {
      captured := false;
      last' := last;
      if now - last >= frameTime {
        var frame := Grab(grab);
        if frame.Ok? {
          frameBuffer.Put(frame.value.data, elapsed);
          framesCaptured := framesCaptured + 1;
          last' := now;
          captured := true;
        }
      }
    }

    /** cleanup: stop, then release the audio capture and the screen grabber.
        `r` is what the stop returned; when finishing the encoder fails
        (the RuntimeError of finish_encoding) the error escapes before
        either resource is closed, so both are left as they were. */
    method Cleanup(exit: Encoder.EncoderExit, mux: seq<string> -> Encoder.RunResult, pipeOk: bool,
                   writeOk: bool, fs: Encoder.FileSystem)
      returns (r: Option<Result<string, Encoder.EncoderError>>, fs': Encoder.FileSystem)
      requires Valid()
      modifies this, frameBuffer, audioBuffer, videoEncoder, audioCapture, screen
      ensures Valid()
      ensures !isRecording && audioCapture == old(audioCapture)
      ensures !old(isRecording) ==> r == None && fs' == fs && Timing() == old(Timing())
      ensures old(isRecording) ==>
        && r.Some? && Timing() == old(Timing()).(isRecording := false)
        && frameBuffer.State() == old(frameBuffer.State()).(items := [])
        && (audioCapture != null && !isPaused ==> audioBuffer.State() == old(audioBuffer.State()).(items := []))
        && (audioCapture == null || isPaused ==> audioBuffer.State() == old(audioBuffer.State()))
        && videoEncoder == old(videoEncoder) && videoEncoder != null
        && var sent := Encoder.SendFrames(old(videoEncoder.State()), Payloads(old(frameBuffer.buffer)), pipeOk);
           var files := if audioCapture != null && !isPaused
                        then Encoder.AudioWrittenAll(sent, fs, Payloads(old(audioBuffer.buffer)), writeOk) else fs;
           (r.value, videoEncoder.State(), fs') == Encoder.Finish(videoEncoder.config, sent, exit, mux, files)
      ensures r.None? || r.value.Ok? ==>
        && (audioCapture != null ==> !audioCapture.audioOpen && !audioCapture.isRecording)
        && screen.closed == (old(screen.closed) || screen.hasDisplay)
      ensures r.Some? && r.value.Err? ==>
        && (audioCapture != null ==> audioCapture.audioOpen == old(audioCapture.audioOpen))
        && screen.closed == old(screen.closed)
    {
      r, fs' := StopRecording(exit, mux, pipeOk, writeOk, fs);
      if r.Some? && r.value.Err? {
        return;
      }
      if audioCapture != null {
        audioCapture.Close();
      }
      screen.Close();
    }
  }
}
