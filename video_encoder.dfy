/** The FFmpeg-driving encoder (src/core/video_encoder.py): configuration
    checks and the output-extension fix, the quality presets, the argument
    vectors it builds, and the bookkeeping of `start_encoding`,
    `write_frame`, `write_audio` and `finish_encoding` over a file system
    given as a map from path to contents. What the ffmpeg processes do is an
    input: their exit codes, what they write, and whether they time out. */
module Encoder {
  import opened Common
  import opened Text
  import opened Paths
  import opened CommandLine

  datatype Preset = Preset(videoBitrate: string, audioBitrate: string, crf: string)

  const QualityPresets: map<string, Preset> := map[
    "Alta" := Preset("5000k", "192k", "18"),
    "Media" := Preset("3000k", "128k", "23"),
    "Baja" := Preset("1000k", "96k", "28")]

  const SupportedFormats: seq<string> := ["mp4", "avi", "mov", "mkv"]

  const DefaultFps: int := 30
  const DefaultSampleRate: int := 44100
  const DefaultChannels: int := 2

  datatype EncoderError =
    | UnsupportedFormat(format: string)
    | InvalidQuality(quality: string)
    | BadOutputPath(reason: PathError)    // with_suffix raised
    | FfmpegMissing
    | EncodingFailed(stderr: Bytes)        // ffmpeg failed and left no output
    | OutputMissing(path: string)

  /** What the constructor keeps. */
  datatype EncoderConfig = EncoderConfig(outputPath: string, width: int, height: int, fps: int,
                                         format: string, quality: string)

  predicate ValidConfig(c: EncoderConfig)
  {
    c.format in SupportedFormats && c.quality in QualityPresets
  }

  /** Python truthiness of an optional string. */
  predicate Present(o: Option<string>)
  {
    o.Some? && o.value != ""
  }

  function AudioCodec(format: string): string
  {
    if format == "mp4" then "aac" else "libmp3lame"
  }

  function SizeArg(width: int, height: int): string
  {
    IntToString(width) + "x" + IntToString(height)
  }

  /** Keep the path when its suffix, lowercased, already names the format;
      otherwise replace or append the suffix. */
  function FixExtension(p: string, format: string): Result<string, PathError>
  {
    if Lower(Suffix(Name(p))) == "." + format then Ok(p) else WithSuffix(p, "." + format)
  }

  lemma LowerOfLowercase(s: string)
    requires forall i :: 0 <= i < |s| ==> !('A' <= s[i] <= 'Z')
    ensures Lower(s) == s
  {
  }

  /** For a supported format the extension fix fails only for a path with no
      name; its result passes the check, so fixing again changes nothing; and
      a changed path keeps every directory and only renames the file. */
  lemma FixExtensionSound(p: string, format: string)
    requires format in SupportedFormats
    ensures FixExtension(p, format).Err? <==> Parts(p) == []
    ensures FixExtension(p, format).Ok? ==>
      var q := FixExtension(p, format).value;
      && Lower(Suffix(Name(q))) == "." + format
      && FixExtension(q, format) == Ok(q)
      && Parts(q)[..|Parts(q)| - 1] == Parts(p)[..|Parts(p)| - 1]
      && IsAbsolute(q) == IsAbsolute(p)
  {
    var suffix := "." + format;
    assert |suffix| >= 2 && suffix[0] == '.' && '.' !in suffix[1..] && '/' !in suffix by {
      assert suffix[1..] == format;
    }
    LowerOfLowercase(suffix);
    if Parts(p) == [] {
      assert Name(p) == "";
    } else if Lower(Suffix(Name(p))) != suffix {
      WithSuffixSetsSuffix(p, suffix);
      var q := FixExtension(p, format).value;
      var n := |Parts(p)|;
      assert Parts(q) == Parts(p)[..n - 1] + [Name(q)];
      assert Parts(q)[..|Parts(q)| - 1] == Parts(p)[..n - 1];
    }
  }

  /** VideoEncoder.__init__'s checks: the lowercased format, then the exact
      quality name, then the extension fix. */
  function Configure(outputPath: string, width: int, height: int, fps: int, format: string, quality: string)
    : (r: Result<EncoderConfig, EncoderError>)
    ensures Lower(format) !in SupportedFormats ==> r == Err(UnsupportedFormat(format))
    ensures Lower(format) in SupportedFormats && quality !in QualityPresets ==> r == Err(InvalidQuality(quality))
    ensures r.Ok? ==>
      && ValidConfig(r.value) && r.value.format == Lower(format) && r.value.quality == quality
      && r.value.width == width && r.value.height == height && r.value.fps == fps
      && FixExtension(outputPath, Lower(format)) == Ok(r.value.outputPath)
    ensures r.Err? && Lower(format) in SupportedFormats && quality in QualityPresets ==>
      FixExtension(outputPath, Lower(format)).Err?
  {
    var fmt := Lower(format);
    if fmt !in SupportedFormats then Err(UnsupportedFormat(format))
    else if quality !in QualityPresets then Err(InvalidQuality(quality))
    else
      match FixExtension(outputPath, fmt)
      case Err(e) => Err(BadOutputPath(e))
      case Ok(p) => Ok(EncoderConfig(p, width, height, fps, fmt, quality))
  }

  /** The start of start_encoding's command: the raw BGR video input. */
  function VideoArgs(c: EncoderConfig, videoInput: string): seq<string>
  {
    ["ffmpeg", "-y", "-f", "rawvideo", "-vcodec", "rawvideo", "-s", SizeArg(c.width, c.height),
     "-pix_fmt", "bgr24", "-r", IntToString(c.fps), "-i", videoInput]
  }

  /** The audio input start_encoding adds: a given audio file at 44100 Hz
      stereo, else the live pipe at the session's rate and channels. */
  function AudioArgs(audioInput: Option<string>, hasAudio: bool, sampleRate: int, channels: int): seq<string>
  {
    if Present(audioInput) then ["-f", "s16le", "-ar", "44100", "-ac", "2", "-i", audioInput.value]
    else if hasAudio then ["-f", "s16le", "-ar", IntToString(sampleRate), "-ac", IntToString(channels), "-i", "pipe:1"]
    else []
  }

  /** The output part of start_encoding's command. */
  function OutputArgs(c: EncoderConfig, withAudio: bool): seq<string>
    requires ValidConfig(c)
  {
    var preset := QualityPresets[c.quality];
    if withAudio then
      ["-c:v", "libx264", "-preset", "medium", "-crf", preset.crf, "-c:a", AudioCodec(c.format),
       "-b:a", preset.audioBitrate, "-pix_fmt", "yuv420p", "-shortest", c.outputPath]
    else
      ["-c:v", "libx264", "-preset", "medium", "-crf", preset.crf, "-pix_fmt", "yuv420p", c.outputPath]
  }

  /** The ffmpeg command start_encoding runs. */
  function EncodeArgs(c: EncoderConfig, videoInput: string, audioInput: Option<string>, hasAudio: bool,
                      sampleRate: int, channels: int): seq<string>
    requires ValidConfig(c)
  {
    VideoArgs(c, videoInput) + AudioArgs(audioInput, hasAudio, sampleRate, channels)
      + OutputArgs(c, hasAudio || Present(audioInput))
  }

  /** The options of the raw BGR video input. */
  function VideoSettings(c: EncoderConfig): seq<Setting>
  {
    [Switch("-y"), Opt("-f", "rawvideo"), Opt("-vcodec", "rawvideo"), Opt("-s", SizeArg(c.width, c.height)),
     Opt("-pix_fmt", "bgr24"), Opt("-r", IntToString(c.fps))]
  }

  /** The second input, if any: the given file at the fixed 44100 Hz stereo,
      or else the live pipe at the given rate and channels. */
  function AudioInputs(audioInput: Option<string>, hasAudio: bool, sampleRate: int, channels: int): seq<Input>
  {
    if Present(audioInput) then [Input([Opt("-f", "s16le"), Opt("-ar", "44100"), Opt("-ac", "2")], audioInput.value)]
    else if hasAudio then
      [Input([Opt("-f", "s16le"), Opt("-ar", IntToString(sampleRate)), Opt("-ac", IntToString(channels))], "pipe:1")]
    else []
  }

  /** The output options, with the audio codec, bitrate and -shortest when
      there is audio. */
  function OutputSettings(c: EncoderConfig, withAudio: bool): seq<Setting>
    requires ValidConfig(c)
  {
    var preset := QualityPresets[c.quality];
    if withAudio then
      [Opt("-c:v", "libx264"), Opt("-preset", "medium"), Opt("-crf", preset.crf), Opt("-c:a", AudioCodec(c.format)),
       Opt("-b:a", preset.audioBitrate), Opt("-pix_fmt", "yuv420p"), Switch("-shortest")]
    else
      [Opt("-c:v", "libx264"), Opt("-preset", "medium"), Opt("-crf", preset.crf), Opt("-pix_fmt", "yuv420p")]
  }

  /** The encode command as ffmpeg reads it: the raw BGR video input, the
      audio input when there is one, then the output options and the output
      path. */
  function EncodeCommand(c: EncoderConfig, videoInput: string, audioInput: Option<string>, hasAudio: bool,
                         sampleRate: int, channels: int): Invocation
    requires ValidConfig(c)
  {
    Invocation([Input(VideoSettings(c), videoInput)] + AudioInputs(audioInput, hasAudio, sampleRate, channels),
               OutputSettings(c, hasAudio || Present(audioInput)), c.outputPath)
  }

  lemma RenderFirstInput(c: EncoderConfig, videoInput: string, audioInput: Option<string>, hasAudio: bool,
                         sampleRate: int, channels: int)
    requires ValidConfig(c)
    ensures var inv := EncodeCommand(c, videoInput, audioInput, hasAudio, sampleRate, channels);
      ["ffmpeg"] + (RenderSettings(inv.inputs[0].settings) + ["-i", videoInput]) == VideoArgs(c, videoInput)
  {
    var inv := EncodeCommand(c, videoInput, audioInput, hasAudio, sampleRate, channels);
    assert inv.inputs[0].settings == VideoSettings(c);
    RenderVideoSettings(c);
  }

  /** The video input's options, rendered. */
  lemma RenderVideoSettings(c: EncoderConfig)
    ensures RenderSettings(VideoSettings(c))
         == ["-y", "-f", "rawvideo", "-vcodec", "rawvideo", "-s", SizeArg(c.width, c.height),
             "-pix_fmt", "bgr24", "-r", IntToString(c.fps)]
  {
    var a := [Switch("-y"), Opt("-f", "rawvideo"), Opt("-vcodec", "rawvideo")];
    var b := [Opt("-s", SizeArg(c.width, c.height)), Opt("-pix_fmt", "bgr24"), Opt("-r", IntToString(c.fps))];
    assert VideoSettings(c) == a + b;
    RenderSettingsAppend(a, b);
    RenderThree(a[0], a[1], a[2]);
    RenderThree(b[0], b[1], b[2]);
    assert RenderSettings(a) == ["-y", "-f", "rawvideo", "-vcodec", "rawvideo"];
    assert RenderSettings(b) == ["-s", SizeArg(c.width, c.height), "-pix_fmt", "bgr24", "-r", IntToString(c.fps)];
  }

  lemma RenderAudioInput(c: EncoderConfig, videoInput: string, audioInput: Option<string>, hasAudio: bool,
                         sampleRate: int, channels: int)
    requires ValidConfig(c)
    ensures var inv := EncodeCommand(c, videoInput, audioInput, hasAudio, sampleRate, channels);
      && |inv.inputs| == (if hasAudio || Present(audioInput) then 2 else 1)
      && RenderInputs(inv.inputs[1..]) == AudioArgs(audioInput, hasAudio, sampleRate, channels)
  {
    var inv := EncodeCommand(c, videoInput, audioInput, hasAudio, sampleRate, channels);
    var a := AudioInputs(audioInput, hasAudio, sampleRate, channels);
    assert inv.inputs[1..] == a;
    if a != [] {
      assert a[1..] == [];
      var ss := a[0].settings;
      RenderSettingsSteps(ss);
      assert ss[0..] == ss;
    }
  }

  /** The output options with audio, rendered. */
  lemma RenderAudioOutput(c: EncoderConfig)
    requires ValidConfig(c)
    ensures RenderSettings(OutputSettings(c, true)) + [c.outputPath] == OutputArgs(c, true)
  {
    var out := OutputSettings(c, true);
    RenderSettingsSteps(out);
    assert out[0..] == out;
    assert RenderSettings(out[5..]) == ["-pix_fmt", "yuv420p", "-shortest"];
    assert RenderSettings(out[3..]) == ["-c:a", AudioCodec(c.format), "-b:a", QualityPresets[c.quality].audioBitrate,
                                        "-pix_fmt", "yuv420p", "-shortest"];
  }

  /** The output options without audio, rendered. */
  lemma RenderSilentOutput(c: EncoderConfig)
    requires ValidConfig(c)
    ensures RenderSettings(OutputSettings(c, false)) + [c.outputPath] == OutputArgs(c, false)
  {
    var out := OutputSettings(c, false);
    RenderSettingsSteps(out);
    assert out[0..] == out;
    assert RenderSettings(out[2..]) == ["-crf", QualityPresets[c.quality].crf, "-pix_fmt", "yuv420p"];
  }

  lemma RenderOutput(c: EncoderConfig, videoInput: string, audioInput: Option<string>, hasAudio: bool,
                     sampleRate: int, channels: int)
    requires ValidConfig(c)
    ensures var inv := EncodeCommand(c, videoInput, audioInput, hasAudio, sampleRate, channels);
      RenderSettings(inv.outputSettings) + [c.outputPath] == OutputArgs(c, hasAudio || Present(audioInput))
  {
    if hasAudio || Present(audioInput) {
      RenderAudioOutput(c);
    } else {
      RenderSilentOutput(c);
    }
  }

  lemma EncodeCommandWellFormed(c: EncoderConfig, videoInput: string, audioInput: Option<string>, hasAudio: bool,
                                sampleRate: int, channels: int)
    requires ValidConfig(c) && !IsFlag(c.outputPath)
    ensures WellFormed(EncodeCommand(c, videoInput, audioInput, hasAudio, sampleRate, channels))
  {
    var inv := EncodeCommand(c, videoInput, audioInput, hasAudio, sampleRate, channels);
    var audio := AudioInputs(audioInput, hasAudio, sampleRate, channels);
    GoodEncodeSettings(c, audioInput, hasAudio, sampleRate, channels);
    assert GoodInputs(inv.inputs) by {
      assert inv.inputs == [Input(VideoSettings(c), videoInput)] + audio;
    }
  }

  /** Each option list of the encode command is read as written. */
  lemma GoodEncodeSettings(c: EncoderConfig, audioInput: Option<string>, hasAudio: bool, sampleRate: int, channels: int)
    requires ValidConfig(c)
    ensures GoodSettings(VideoSettings(c))
    ensures GoodInputs(AudioInputs(audioInput, hasAudio, sampleRate, channels))
    ensures GoodSettings(OutputSettings(c, hasAudio || Present(audioInput)))
  {
    GoodVideoSettings(c);
    GoodAudioInputs(audioInput, hasAudio, sampleRate, channels);
    if hasAudio || Present(audioInput) {
      GoodAudioOutput(c);
    } else {
      GoodSilentOutput(c);
    }
  }

  lemma GoodVideoSettings(c: EncoderConfig)
    ensures GoodSettings(VideoSettings(c))
  {
    var vs := VideoSettings(c);
    assert GoodSetting(vs[0]) && GoodSetting(vs[1]) && GoodSetting(vs[2]);
    assert GoodSetting(vs[3]) && GoodSetting(vs[4]) && GoodSetting(vs[5]);
  }

  lemma GoodAudioInputs(audioInput: Option<string>, hasAudio: bool, sampleRate: int, channels: int)
    ensures GoodInputs(AudioInputs(audioInput, hasAudio, sampleRate, channels))
  {
    var audio := AudioInputs(audioInput, hasAudio, sampleRate, channels);
    if audio != [] {
      var ss := audio[0].settings;
      assert GoodSetting(ss[0]) && GoodSetting(ss[1]) && GoodSetting(ss[2]);
      assert GoodSettings(ss);
    }
  }

  lemma GoodAudioOutput(c: EncoderConfig)
    requires ValidConfig(c)
    ensures GoodSettings(OutputSettings(c, true))
  {
    var out := OutputSettings(c, true);
    assert GoodSetting(out[0]) && GoodSetting(out[1]) && GoodSetting(out[2]) && GoodSetting(out[3]);
    assert GoodSetting(out[4]) && GoodSetting(out[5]) && GoodSetting(out[6]);
  }

  lemma GoodSilentOutput(c: EncoderConfig)
    requires ValidConfig(c)
    ensures GoodSettings(OutputSettings(c, false))
  {
    var out := OutputSettings(c, false);
    assert GoodSetting(out[0]) && GoodSetting(out[1]) && GoodSetting(out[2]) && GoodSetting(out[3]);
  }

  /** The argument vector in three pieces: the video input, the audio input
      (possibly none) and the output part. */
  lemma ArgvPieces(c: EncoderConfig, videoInput: string, audioInput: Option<string>, hasAudio: bool,
                   sampleRate: int, channels: int)
    requires ValidConfig(c)
    ensures var inv := EncodeCommand(c, videoInput, audioInput, hasAudio, sampleRate, channels);
      Argv(inv) == ["ffmpeg"] + (RenderSettings(inv.inputs[0].settings) + ["-i", videoInput])
                   + RenderInputs(inv.inputs[1..]) + (RenderSettings(inv.outputSettings) + [c.outputPath])
  {
    var inv := EncodeCommand(c, videoInput, audioInput, hasAudio, sampleRate, channels);
    assert RenderInputs(inv.inputs) == RenderSettings(inv.inputs[0].settings) + ["-i", videoInput] + RenderInputs(inv.inputs[1..]);
  }

  /** The literal argument vector of start_encoding is the rendering of the
      structured encode command. */
  lemma EncodeArgsIsArgv(c: EncoderConfig, videoInput: string, audioInput: Option<string>, hasAudio: bool,
                         sampleRate: int, channels: int)
    requires ValidConfig(c)
    ensures EncodeArgs(c, videoInput, audioInput, hasAudio, sampleRate, channels)
         == Argv(EncodeCommand(c, videoInput, audioInput, hasAudio, sampleRate, channels))
  {
    ArgvPieces(c, videoInput, audioInput, hasAudio, sampleRate, channels);
    RenderFirstInput(c, videoInput, audioInput, hasAudio, sampleRate, channels);
    RenderAudioInput(c, videoInput, audioInput, hasAudio, sampleRate, channels);
    RenderOutput(c, videoInput, audioInput, hasAudio, sampleRate, channels);
  }

  /** Reading the encode command back gives exactly EncodeCommand. */
  lemma EncodeArgsReadBack(c: EncoderConfig, videoInput: string, audioInput: Option<string>, hasAudio: bool,
                           sampleRate: int, channels: int)
    requires ValidConfig(c) && !IsFlag(c.outputPath)
    ensures Parse(EncodeArgs(c, videoInput, audioInput, hasAudio, sampleRate, channels))
         == Some(EncodeCommand(c, videoInput, audioInput, hasAudio, sampleRate, channels))
  {
    EncodeArgsIsArgv(c, videoInput, audioInput, hasAudio, sampleRate, channels);
    EncodeCommandWellFormed(c, videoInput, audioInput, hasAudio, sampleRate, channels);
    ParseArgv(EncodeCommand(c, videoInput, audioInput, hasAudio, sampleRate, channels));
  }

  /** The video input of the encode command is the raw BGR stream at the
      configured size and frame rate. */
  lemma EncodeVideoInput(c: EncoderConfig, videoInput: string, audioInput: Option<string>, hasAudio: bool,
                         sampleRate: int, channels: int)
    requires ValidConfig(c)
    ensures var inv := EncodeCommand(c, videoInput, audioInput, hasAudio, sampleRate, channels);
      && inv.inputs[0].url == videoInput
      && Lookup(inv.inputs[0].settings, "-f") == Some("rawvideo")
      && Lookup(inv.inputs[0].settings, "-s") == Some(SizeArg(c.width, c.height))
      && Lookup(inv.inputs[0].settings, "-pix_fmt") == Some("bgr24")
      && Lookup(inv.inputs[0].settings, "-r") == Some(IntToString(c.fps))
  {
    var ss := EncodeCommand(c, videoInput, audioInput, hasAudio, sampleRate, channels).inputs[0].settings;
    assert ss[0..] == ss;
    LookupSteps(ss, "-f");
    LookupSteps(ss, "-s");
    LookupSteps(ss, "-pix_fmt");
    LookupSteps(ss, "-r");
    assert "-f" != "-s" && "-vcodec" != "-s";
    assert Lookup(ss[1..], "-s") == Lookup(ss[3..], "-s");
    assert "-s" != "-pix_fmt" && "-f" != "-pix_fmt" && "-vcodec" != "-pix_fmt";
    assert Lookup(ss[1..], "-pix_fmt") == Lookup(ss[4..], "-pix_fmt");
    assert "-s" != "-r" && "-f" != "-r" && "-vcodec" != "-r" && "-pix_fmt" != "-r";
    assert Lookup(ss[1..], "-r") == Lookup(ss[5..], "-r");
  }

  /** The encode command has a second, s16le input exactly when there is
      audio: a given audio file is read at the fixed 44100 Hz stereo, and
      otherwise live audio comes from the pipe at the given rate and
      channels. */
  lemma EncodeAudioInput(c: EncoderConfig, videoInput: string, audioInput: Option<string>, hasAudio: bool,
                         sampleRate: int, channels: int)
    requires ValidConfig(c)
    ensures var inv := EncodeCommand(c, videoInput, audioInput, hasAudio, sampleRate, channels);
      && |inv.inputs| == (if hasAudio || Present(audioInput) then 2 else 1)
      && (hasAudio || Present(audioInput) ==> Lookup(inv.inputs[1].settings, "-f") == Some("s16le"))
      && (Present(audioInput) ==>
            && inv.inputs[1].url == audioInput.value
            && Lookup(inv.inputs[1].settings, "-ar") == Some("44100")
            && Lookup(inv.inputs[1].settings, "-ac") == Some("2"))
      && (!Present(audioInput) && hasAudio ==>
            && inv.inputs[1].url == "pipe:1"
            && Lookup(inv.inputs[1].settings, "-ar") == Some(IntToString(sampleRate))
            && Lookup(inv.inputs[1].settings, "-ac") == Some(IntToString(channels)))
  {
    var inv := EncodeCommand(c, videoInput, audioInput, hasAudio, sampleRate, channels);
    if |inv.inputs| == 2 {
      var ss := inv.inputs[1].settings;
      assert ss[0..] == ss;
      LookupSteps(ss, "-f");
      LookupSteps(ss, "-ar");
      LookupSteps(ss, "-ac");
    }
  }

  /** The output options of the encode command: libx264 at the preset's crf;
      an audio codec (aac exactly for mp4), the preset's audio bitrate and
      -shortest only when there is audio; the configured output path last. */
  lemma EncodeOutput(c: EncoderConfig, videoInput: string, audioInput: Option<string>, hasAudio: bool,
                     sampleRate: int, channels: int)
    requires ValidConfig(c)
    ensures var inv := EncodeCommand(c, videoInput, audioInput, hasAudio, sampleRate, channels);
      var withAudio := hasAudio || Present(audioInput);
      var preset := QualityPresets[c.quality];
      && inv.output == c.outputPath
      && Lookup(inv.outputSettings, "-c:v") == Some("libx264")
      && Lookup(inv.outputSettings, "-crf") == Some(preset.crf)
      && Lookup(inv.outputSettings, "-c:a") == (if withAudio then Some(AudioCodec(c.format)) else None)
      && Lookup(inv.outputSettings, "-b:a") == (if withAudio then Some(preset.audioBitrate) else None)
      && (Switch("-shortest") in inv.outputSettings <==> withAudio)
  {
    if hasAudio || Present(audioInput) {
      AudioOutputOptions(c);
    } else {
      SilentOutputOptions(c);
    }
  }

  lemma AudioOutputOptions(c: EncoderConfig)
    requires ValidConfig(c)
    ensures var ss := OutputSettings(c, true);
      var preset := QualityPresets[c.quality];
      && Lookup(ss, "-c:v") == Some("libx264") && Lookup(ss, "-crf") == Some(preset.crf)
      && Lookup(ss, "-c:a") == Some(AudioCodec(c.format)) && Lookup(ss, "-b:a") == Some(preset.audioBitrate)
      && Switch("-shortest") in ss
  {
    var ss := OutputSettings(c, true);
    assert ss[0..] == ss;
    LookupSteps(ss, "-c:v");
    LookupSteps(ss, "-crf");
    LookupSteps(ss, "-c:a");
    LookupSteps(ss, "-b:a");
    assert "-c:v" != "-c:a" && "-preset" != "-c:a" && "-crf" != "-c:a";
    assert "-c:v" != "-b:a" && "-preset" != "-b:a" && "-crf" != "-b:a" && "-c:a" != "-b:a";
    assert Lookup(ss[1..], "-c:a") == Lookup(ss[3..], "-c:a");
    assert Lookup(ss[1..], "-b:a") == Lookup(ss[4..], "-b:a");
    assert ss[6] == Switch("-shortest");
  }

  lemma SilentOutputOptions(c: EncoderConfig)
    requires ValidConfig(c)
    ensures var ss := OutputSettings(c, false);
      && Lookup(ss, "-c:v") == Some("libx264") && Lookup(ss, "-crf") == Some(QualityPresets[c.quality].crf)
      && Lookup(ss, "-c:a") == None && Lookup(ss, "-b:a") == None
      && Switch("-shortest") !in ss
  {
    var ss := OutputSettings(c, false);
    assert ss[0..] == ss;
    LookupSteps(ss, "-c:v");
    LookupSteps(ss, "-crf");
    LookupSteps(ss, "-c:a");
    LookupSteps(ss, "-b:a");
    assert "-c:v" != "-c:a" && "-preset" != "-c:a" && "-crf" != "-c:a" && "-pix_fmt" != "-c:a";
    assert "-c:v" != "-b:a" && "-preset" != "-b:a" && "-crf" != "-b:a" && "-pix_fmt" != "-b:a";
    assert Lookup(ss[1..], "-c:a") == Lookup(ss[4..], "-c:a");
    assert Lookup(ss[1..], "-b:a") == Lookup(ss[4..], "-b:a");
  }

  /** The ffmpeg command that muxes the scratch audio into the video. */
  function MuxArgs(c: EncoderConfig, tempVideo: string, sampleRate: int, channels: int, audioFile: string): seq<string>
    requires ValidConfig(c)
  {
    ["ffmpeg", "-y", "-i", tempVideo, "-f", "s16le", "-ar", IntToString(sampleRate), "-ac", IntToString(channels),
     "-i", audioFile, "-c:v", "copy", "-c:a", AudioCodec(c.format), "-b:a", QualityPresets[c.quality].audioBitrate,
     "-shortest", c.outputPath]
  }

  /** The mux command as ffmpeg reads it. */
  function MuxCommand(c: EncoderConfig, tempVideo: string, sampleRate: int, channels: int, audioFile: string): Invocation
    requires ValidConfig(c)
  {
    Invocation(
      [Input([Switch("-y")], tempVideo),
       Input([Opt("-f", "s16le"), Opt("-ar", IntToString(sampleRate)), Opt("-ac", IntToString(channels))], audioFile)],
      [Opt("-c:v", "copy"), Opt("-c:a", AudioCodec(c.format)), Opt("-b:a", QualityPresets[c.quality].audioBitrate),
       Switch("-shortest")],
      c.outputPath)
  }

  /** The rendered options of the mux command's audio input and output. */
  lemma MuxSettingsRendered(c: EncoderConfig, tempVideo: string, sampleRate: int, channels: int, audioFile: string)
    requires ValidConfig(c)
    ensures var inv := MuxCommand(c, tempVideo, sampleRate, channels, audioFile);
      && RenderSettings(inv.inputs[1].settings) == ["-f", "s16le", "-ar", IntToString(sampleRate), "-ac", IntToString(channels)]
      && RenderSettings(inv.outputSettings)
         == ["-c:v", "copy", "-c:a", AudioCodec(c.format), "-b:a", QualityPresets[c.quality].audioBitrate, "-shortest"]
  {
    var inv := MuxCommand(c, tempVideo, sampleRate, channels, audioFile);
    var second := inv.inputs[1].settings;
    RenderSettingsSteps(second);
    assert second[0..] == second;
    RenderSettingsSteps(inv.outputSettings);
    assert inv.outputSettings[0..] == inv.outputSettings;
  }

  /** The rendered inputs of the mux command. */
  lemma MuxInputsRendered(c: EncoderConfig, tempVideo: string, sampleRate: int, channels: int, audioFile: string)
    requires ValidConfig(c)
    ensures RenderInputs(MuxCommand(c, tempVideo, sampleRate, channels, audioFile).inputs)
         == ["-y", "-i", tempVideo, "-f", "s16le", "-ar", IntToString(sampleRate), "-ac", IntToString(channels),
             "-i", audioFile]
  {
    var inv := MuxCommand(c, tempVideo, sampleRate, channels, audioFile);
    MuxSettingsRendered(c, tempVideo, sampleRate, channels, audioFile);
    var second := inv.inputs[1].settings;
    assert inv.inputs[1..] == [inv.inputs[1]] && inv.inputs[1..][1..] == [];
    assert RenderSettings(inv.inputs[0].settings) == ["-y"];
    assert RenderInputs(inv.inputs[1..]) == RenderSettings(second) + ["-i", audioFile];
  }

  /** The literal mux argument vector of finish_encoding is the rendering of
      the structured mux command. */
  lemma MuxArgsIsArgv(c: EncoderConfig, tempVideo: string, sampleRate: int, channels: int, audioFile: string)
    requires ValidConfig(c)
    ensures MuxArgs(c, tempVideo, sampleRate, channels, audioFile) == Argv(MuxCommand(c, tempVideo, sampleRate, channels, audioFile))
  {
    MuxSettingsRendered(c, tempVideo, sampleRate, channels, audioFile);
    MuxInputsRendered(c, tempVideo, sampleRate, channels, audioFile);
  }

  lemma MuxArgsReadBack(c: EncoderConfig, tempVideo: string, sampleRate: int, channels: int, audioFile: string)
    requires ValidConfig(c) && !IsFlag(c.outputPath)
    ensures Parse(MuxArgs(c, tempVideo, sampleRate, channels, audioFile))
         == Some(MuxCommand(c, tempVideo, sampleRate, channels, audioFile))
  {
    var inv := MuxCommand(c, tempVideo, sampleRate, channels, audioFile);
    MuxArgsIsArgv(c, tempVideo, sampleRate, channels, audioFile);
    assert GoodSettings(inv.inputs[0].settings) && GoodSettings(inv.inputs[1].settings);
    assert GoodInputs(inv.inputs);
    assert WellFormed(inv);
    ParseArgv(inv);
  }

  /** The mux command takes the moved video and the raw audio at the
      session's rate and channels, copies the video stream, encodes the audio
      with the format's codec and preset bitrate, and writes the output. */
  lemma MuxCommandMeaning(c: EncoderConfig, tempVideo: string, sampleRate: int, channels: int, audioFile: string)
    requires ValidConfig(c)
    ensures var inv := MuxCommand(c, tempVideo, sampleRate, channels, audioFile);
      && |inv.inputs| == 2 && inv.inputs[0].url == tempVideo && inv.inputs[1].url == audioFile
      && Lookup(inv.inputs[1].settings, "-f") == Some("s16le")
      && Lookup(inv.inputs[1].settings, "-ar") == Some(IntToString(sampleRate))
      && Lookup(inv.inputs[1].settings, "-ac") == Some(IntToString(channels))
      && Lookup(inv.outputSettings, "-c:v") == Some("copy")
      && Lookup(inv.outputSettings, "-c:a") == Some(AudioCodec(c.format))
      && Lookup(inv.outputSettings, "-b:a") == Some(QualityPresets[c.quality].audioBitrate)
      && Switch("-shortest") in inv.outputSettings
      && inv.output == c.outputPath
  {
    var inv := MuxCommand(c, tempVideo, sampleRate, channels, audioFile);
    var ss := inv.inputs[1].settings;
    assert ss[0..] == ss;
    LookupSteps(ss, "-f");
    LookupSteps(ss, "-ar");
    LookupSteps(ss, "-ac");
    var out := inv.outputSettings;
    assert out[0..] == out;
    LookupSteps(out, "-c:v");
    LookupSteps(out, "-c:a");
    LookupSteps(out, "-b:a");
  }

  /** The ffmpeg command of encode_from_files. */
  function FilesArgs(c: EncoderConfig, videoFile: string, audioFile: Option<string>): seq<string>
    requires ValidConfig(c)
  {
    var preset := QualityPresets[c.quality];
    ["ffmpeg", "-y", "-i", videoFile]
      + (if Present(audioFile) then ["-i", audioFile.value] else [])
      + ["-c:v", "libx264", "-preset", "medium", "-crf", preset.crf, "-c:a", AudioCodec(c.format),
         "-b:a", preset.audioBitrate, c.outputPath]
  }

  /** The encode_from_files command as ffmpeg reads it. */
  function FilesCommand(c: EncoderConfig, videoFile: string, audioFile: Option<string>): Invocation
    requires ValidConfig(c)
  {
    var preset := QualityPresets[c.quality];
    Invocation(
      [Input([Switch("-y")], videoFile)] + (if Present(audioFile) then [Input([], audioFile.value)] else []),
      [Opt("-c:v", "libx264"), Opt("-preset", "medium"), Opt("-crf", preset.crf),
       Opt("-c:a", AudioCodec(c.format)), Opt("-b:a", preset.audioBitrate)],
      c.outputPath)
  }

  /** The literal argument vector of encode_from_files is the rendering of
      the structured command. */
  lemma FilesArgsIsArgv(c: EncoderConfig, videoFile: string, audioFile: Option<string>)
    requires ValidConfig(c)
    ensures FilesArgs(c, videoFile, audioFile) == Argv(FilesCommand(c, videoFile, audioFile))
  {
    var inv := FilesCommand(c, videoFile, audioFile);
    var ins := inv.inputs;
    FilesOutputRendered(c, videoFile, audioFile);
    assert RenderSettings(ins[0].settings) == ["-y"];
    if Present(audioFile) {
      assert ins[1..] == [Input([], audioFile.value)] && ins[1..][1..] == [];
      assert RenderSettings(ins[1].settings) == [];
      assert RenderInputs(ins[1..]) == ["-i", audioFile.value];
      assert RenderInputs(ins) == ["-y", "-i", videoFile] + ["-i", audioFile.value];
    } else {
      assert ins[1..] == [];
      assert RenderInputs(ins) == ["-y", "-i", videoFile];
    }
  }

  /** The rendered output options of encode_from_files. */
  lemma FilesOutputRendered(c: EncoderConfig, videoFile: string, audioFile: Option<string>)
    requires ValidConfig(c)
    ensures RenderSettings(FilesCommand(c, videoFile, audioFile).outputSettings)
         == ["-c:v", "libx264", "-preset", "medium", "-crf", QualityPresets[c.quality].crf,
             "-c:a", AudioCodec(c.format), "-b:a", QualityPresets[c.quality].audioBitrate]
  {
    var out := FilesCommand(c, videoFile, audioFile).outputSettings;
    RenderSettingsSteps(out);
    assert out[0..] == out;
    assert RenderSettings(out[3..]) == ["-c:a", AudioCodec(c.format), "-b:a", QualityPresets[c.quality].audioBitrate];
  }

  /** Reading the encode_from_files command back gives exactly FilesCommand. */
  lemma FilesArgsReadBack(c: EncoderConfig, videoFile: string, audioFile: Option<string>)
    requires ValidConfig(c) && !IsFlag(c.outputPath)
    ensures Parse(FilesArgs(c, videoFile, audioFile)) == Some(FilesCommand(c, videoFile, audioFile))
  {
    var inv := FilesCommand(c, videoFile, audioFile);
    FilesArgsIsArgv(c, videoFile, audioFile);
    assert GoodSettings(inv.inputs[0].settings);
    assert GoodInputs(inv.inputs);
    assert GoodSettings(inv.outputSettings);
    ParseArgv(inv);
  }

  /** encode_from_files reads the video file and, when one is given, the
      audio file; it always re-encodes with the preset's crf and the
      format's audio codec into the output. */
  lemma FilesCommandMeaning(c: EncoderConfig, videoFile: string, audioFile: Option<string>)
    requires ValidConfig(c)
    ensures var inv := FilesCommand(c, videoFile, audioFile);
      && |inv.inputs| == (if Present(audioFile) then 2 else 1)
      && inv.inputs[0].url == videoFile
      && (Present(audioFile) ==> inv.inputs[1].url == audioFile.value)
      && Lookup(inv.outputSettings, "-crf") == Some(QualityPresets[c.quality].crf)
      && Lookup(inv.outputSettings, "-c:a") == Some(AudioCodec(c.format))
      && inv.output == c.outputPath
  {
    var out := FilesCommand(c, videoFile, audioFile).outputSettings;
    assert out[0..] == out;
    LookupSteps(out, "-crf");
    LookupSteps(out, "-c:a");
  }

  /** What one ffmpeg run reports: whether it finished before its timeout,
      its exit code, its stderr, and what it left at the output path. */
  datatype RunResult = RunResult(completed: bool, returnCode: int, stderr: Bytes, written: Option<Bytes>)

  /** encode_from_files: no availability means an error, a non-zero exit an
      error, anything else the output path (which is not checked). */
  function EncodeFromFiles(c: EncoderConfig, ffmpegAvailable: bool, videoFile: string, audioFile: Option<string>,
                           run: seq<string> -> RunResult): (r: Result<string, EncoderError>)
    requires ValidConfig(c)
    ensures r.Ok? <==> ffmpegAvailable && run(FilesArgs(c, videoFile, audioFile)).returnCode == 0
    ensures r.Ok? ==> r.value == c.outputPath
    ensures !ffmpegAvailable ==> r == Err(FfmpegMissing)
  {
    if !ffmpegAvailable then Err(FfmpegMissing)
    else
      var result := run(FilesArgs(c, videoFile, audioFile));
      if result.returnCode != 0 then Err(EncodingFailed(result.stderr)) else Ok(c.outputPath)
  }

  type FileSystem = map<string, Bytes>

  /** open(path, "ab").write(data). */
  function AppendFile(fs: FileSystem, path: string, data: Bytes): FileSystem
  {
    fs[path := (if path in fs then fs[path] else []) + data]
  }

  function AppendAll(fs: FileSystem, path: string, chunks: seq<Bytes>): FileSystem
  {
    if chunks == [] then fs else AppendFile(AppendAll(fs, path, chunks[..|chunks| - 1]), path, chunks[|chunks| - 1])
  }

  /** Appending chunks one call at a time leaves their in-order
      concatenation after the file's old contents, and touches no other file. */
  lemma {:induction false} AppendAllConcatenates(fs: FileSystem, path: string, chunks: seq<Bytes>)
    ensures chunks != [] ==> path in AppendAll(fs, path, chunks)
    ensures path in AppendAll(fs, path, chunks) ==>
      AppendAll(fs, path, chunks)[path] == (if path in fs then fs[path] else []) + Concat(chunks)
    ensures forall k :: k != path ==>
      (k in AppendAll(fs, path, chunks) <==> k in fs)
      && (k in fs ==> AppendAll(fs, path, chunks)[k] == fs[k])
  {
    if chunks != [] {
      var init := chunks[..|chunks| - 1];
      AppendAllConcatenates(fs, path, init);
      if init == [] {
        assert Concat(chunks) == Concat(init) + chunks[0];
      }
    }
  }

  /** `if os.path.exists(path): os.remove(path)`. */
  function RemoveIfExists(fs: FileSystem, path: string): FileSystem
  {
    if path in fs then fs - {path} else fs
  }

  function Rename(fs: FileSystem, from: string, to: string): FileSystem
    requires from in fs
  {
    (fs - {from})[to := fs[from]]
  }

  /** The running ffmpeg process: its command, whether its stdin is still
      open, and the frames written to it so far. */
  datatype Process = Process(argv: seq<string>, stdinOpen: bool, sent: seq<Bytes>)

  /** The mutable part of an encoder. */
  datatype Session = Session(process: Option<Process>, encoding: bool, hasAudio: bool,
                             sampleRate: int, channels: int, audioFilePath: Option<string>)

  /** What the encoding process reports once its stdin is closed. */
  datatype EncoderExit = EncoderExit(returnCode: int, stderr: Bytes, written: Option<Bytes>)

  function TempVideo(c: EncoderConfig): string
  {
    c.outputPath + ".temp"
  }

  /** The mux step of finish_encoding on a present scratch file. */
  function Mux(c: EncoderConfig, s: Session, mux: seq<string> -> RunResult, fs: FileSystem): FileSystem
    requires ValidConfig(c) && s.audioFilePath.Some? && s.audioFilePath.value in fs
  {
    var audio := s.audioFilePath.value;
    if |fs[audio]| > 0 then
      var temp := TempVideo(c);
      var moved := if c.outputPath in fs then Rename(fs, c.outputPath, temp) else fs;
      var run := mux(MuxArgs(c, temp, s.sampleRate, s.channels, audio));
      var muxed := if run.written.Some? then moved[c.outputPath := run.written.value] else moved;
      if !run.completed then RemoveIfExists(muxed, audio)
      else
        var settled :=
          if run.returnCode == 0 then RemoveIfExists(muxed, temp)
          else if temp in muxed then Rename(muxed, temp, c.outputPath)
          else muxed;
        RemoveIfExists(settled, audio)
    else RemoveIfExists(fs, audio)
  }

  /** The part of finish_encoding after the process has been dealt with. */
  function FinishMux(c: EncoderConfig, s: Session, mux: seq<string> -> RunResult, fs: FileSystem)
    : (Result<string, EncoderError>, Session, FileSystem)
    requires ValidConfig(c)
  {
    var files :=
      if s.hasAudio && Present(s.audioFilePath) && s.audioFilePath.value in fs then Mux(c, s, mux, fs) else fs;
    (if c.outputPath in files then Ok(c.outputPath) else Err(OutputMissing(c.outputPath)), s, files)
  }

  /** finish_encoding on the abstract state. */
  function Finish(c: EncoderConfig, s: Session, exit: EncoderExit, mux: seq<string> -> RunResult, fs: FileSystem)
    : (Result<string, EncoderError>, Session, FileSystem)
    requires ValidConfig(c)
  {
    if s.process.Some? then
      var files := if exit.written.Some? then fs[c.outputPath := exit.written.value] else fs;
      if exit.returnCode != 0 && c.outputPath !in files then
        (Err(EncodingFailed(exit.stderr)), s.(process := Some(s.process.value.(stdinOpen := false))), files)
      else FinishMux(c, s.(process := None, encoding := false), mux, files)
    else FinishMux(c, s, mux, fs)
  }

  /** The result is the output path exactly when that file exists afterwards;
      the only other error is a failed ffmpeg exit with no output, which
      leaves the process in place with its stdin closed. Otherwise the
      process is gone, encoding has stopped if there was one, and the
      scratch audio file no longer exists. */
  lemma FinishOutcome(c: EncoderConfig, s: Session, exit: EncoderExit, mux: seq<string> -> RunResult, fs: FileSystem)
    requires ValidConfig(c)
    ensures var (r, s', fs') := Finish(c, s, exit, mux, fs);
      && (r.Ok? <==> c.outputPath in fs')
      && (r.Ok? ==> r.value == c.outputPath)
      && (r.Err? ==> r.error.EncodingFailed? || r.error == OutputMissing(c.outputPath))
      && (r.Err? && r.error.EncodingFailed? <==>
            s.process.Some? && exit.returnCode != 0 && c.outputPath !in fs' && s'.process.Some?)
      && (r.Err? && r.error.EncodingFailed? ==> !s'.process.value.stdinOpen && s'.encoding == s.encoding)
      && (!(r.Err? && r.error.EncodingFailed?) ==>
            && s'.process.None?
            && (s.process.Some? ==> !s'.encoding)
            && (s'.hasAudio && Present(s'.audioFilePath) ==> s'.audioFilePath.value !in fs'))
  {
  }

  /** A failed mux puts the moved video back: the output path again holds
      the video ffmpeg produced, and neither the ".temp" copy nor the scratch
      audio remains. */
  lemma MuxFailureRestoresVideo(c: EncoderConfig, s: Session, mux: seq<string> -> RunResult, fs: FileSystem)
    requires ValidConfig(c) && s.audioFilePath.Some?
    requires s.audioFilePath.value in fs && |fs[s.audioFilePath.value]| > 0
    requires c.outputPath in fs
    requires s.audioFilePath.value != c.outputPath && s.audioFilePath.value != TempVideo(c)
    requires var run := mux(MuxArgs(c, TempVideo(c), s.sampleRate, s.channels, s.audioFilePath.value));
      run.completed && run.returnCode != 0
    ensures c.outputPath in Mux(c, s, mux, fs) && Mux(c, s, mux, fs)[c.outputPath] == fs[c.outputPath]
    ensures TempVideo(c) !in Mux(c, s, mux, fs) && s.audioFilePath.value !in Mux(c, s, mux, fs)
  {
    assert TempVideo(c) != c.outputPath by {
      assert |TempVideo(c)| == |c.outputPath| + 5;
    }
  }

  /** A successful mux leaves what it wrote at the output path and removes
      the ".temp" copy and the scratch audio. */
  lemma MuxSuccessCleansUp(c: EncoderConfig, s: Session, mux: seq<string> -> RunResult, fs: FileSystem)
    requires ValidConfig(c) && s.audioFilePath.Some?
    requires s.audioFilePath.value in fs && |fs[s.audioFilePath.value]| > 0
    requires s.audioFilePath.value != c.outputPath
    requires var run := mux(MuxArgs(c, TempVideo(c), s.sampleRate, s.channels, s.audioFilePath.value));
      run.completed && run.returnCode == 0 && run.written.Some?
    ensures var run := mux(MuxArgs(c, TempVideo(c), s.sampleRate, s.channels, s.audioFilePath.value));
      c.outputPath in Mux(c, s, mux, fs) && Mux(c, s, mux, fs)[c.outputPath] == run.written.value
    ensures TempVideo(c) !in Mux(c, s, mux, fs) && s.audioFilePath.value !in Mux(c, s, mux, fs)
  {
    assert TempVideo(c) != c.outputPath by {
      assert |TempVideo(c)| == |c.outputPath| + 5;
    }
  }

  /** A mux that times out after the video was moved leaves the output path
      empty: the video stays under its ".temp" name. */
  lemma MuxTimeoutLeavesVideoMoved(c: EncoderConfig, s: Session, mux: seq<string> -> RunResult, fs: FileSystem)
    requires ValidConfig(c) && s.audioFilePath.Some?
    requires s.audioFilePath.value in fs && |fs[s.audioFilePath.value]| > 0
    requires c.outputPath in fs
    requires s.audioFilePath.value != TempVideo(c)
    requires var run := mux(MuxArgs(c, TempVideo(c), s.sampleRate, s.channels, s.audioFilePath.value));
      !run.completed && run.written.None?
    ensures c.outputPath !in Mux(c, s, mux, fs)
    ensures TempVideo(c) in Mux(c, s, mux, fs) && Mux(c, s, mux, fs)[TempVideo(c)] == fs[c.outputPath]
  {
    assert TempVideo(c) != c.outputPath by {
      assert |TempVideo(c)| == |c.outputPath| + 5;
    }
  }

  /** A second finish_encoding after one that got past the process step runs
      neither the process nor the mux: it returns the same outcome and
      changes nothing, whatever the processes would report. */
  lemma FinishTwice(c: EncoderConfig, s: Session, exit1: EncoderExit, mux1: seq<string> -> RunResult,
                    exit2: EncoderExit, mux2: seq<string> -> RunResult, fs: FileSystem)
    requires ValidConfig(c)
    requires var r := Finish(c, s, exit1, mux1, fs).0; !(r.Err? && r.error.EncodingFailed?)
    ensures var (r, s', fs') := Finish(c, s, exit1, mux1, fs);
      Finish(c, s', exit2, mux2, fs') == (r, s', fs')
  {
    FinishOutcome(c, s, exit1, mux1, fs);
  }

  /** write_frame on the abstract state: a frame goes to an open stdin; a
      failed write only marks the encoder as no longer encoding. */
  function SendFrame(s: Session, frame: Bytes, pipeOk: bool): Session
  {
    if s.process.Some? && s.process.value.stdinOpen then
      if pipeOk then s.(process := Some(s.process.value.(sent := s.process.value.sent + [frame])))
      else s.(encoding := false)
    else s
  }

  /** A run of write_frame calls, oldest first, all with the same pipe outcome. */
  function SendFrames(s: Session, frames: seq<Bytes>, pipeOk: bool): Session
  {
    if frames == [] then s else SendFrame(SendFrames(s, frames[..|frames| - 1], pipeOk), frames[|frames| - 1], pipeOk)
  }

  /** Frames written through a working pipe reach ffmpeg in order and
      nothing else changes; through a broken pipe none arrive and encoding
      stops; with no open stdin nothing happens at all. */
  lemma {:induction false} SendFramesOutcome(s: Session, frames: seq<Bytes>, pipeOk: bool)
    ensures s.process.Some? && s.process.value.stdinOpen && pipeOk ==>
      SendFrames(s, frames, pipeOk) == s.(process := Some(s.process.value.(sent := s.process.value.sent + frames)))
    ensures s.process.Some? && s.process.value.stdinOpen && !pipeOk ==>
      SendFrames(s, frames, pipeOk) == if frames == [] then s else s.(encoding := false)
    ensures !(s.process.Some? && s.process.value.stdinOpen) ==> SendFrames(s, frames, pipeOk) == s
  {
    if frames != [] {
      var init := frames[..|frames| - 1];
      SendFramesOutcome(s, init, pipeOk);
      if s.process.Some? && s.process.value.stdinOpen && pipeOk {
        assert s.process.value.sent + init + [frames[|frames| - 1]] == s.process.value.sent + frames;
      }
    } else if s.process.Some? {
      assert s.process.value.sent + frames == s.process.value.sent;
    }
  }

  /** write_audio on the file system: appended to the scratch file when
      there is audio and a scratch name, and the write succeeds. */
  function AudioWritten(s: Session, fs: FileSystem, data: Bytes, writeOk: bool): FileSystem
  {
    if s.hasAudio && Present(s.audioFilePath) && writeOk then AppendFile(fs, s.audioFilePath.value, data) else fs
  }

  /** A run of write_audio calls, oldest first. */
  function AudioWrittenAll(s: Session, fs: FileSystem, chunks: seq<Bytes>, writeOk: bool): FileSystem
  {
    if chunks == [] then fs else AudioWritten(s, AudioWrittenAll(s, fs, chunks[..|chunks| - 1], writeOk), chunks[|chunks| - 1], writeOk)
  }

  /** Consecutive write_audio calls leave the scratch file holding its old
      contents followed by every chunk in order, or change nothing. */
  lemma {:induction false} AudioWrittenAllAppends(s: Session, fs: FileSystem, chunks: seq<Bytes>, writeOk: bool)
    ensures AudioWrittenAll(s, fs, chunks, writeOk) ==
      if s.hasAudio && Present(s.audioFilePath) && writeOk then AppendAll(fs, s.audioFilePath.value, chunks) else fs
  {
    if chunks != [] {
      AudioWrittenAllAppends(s, fs, chunks[..|chunks| - 1], writeOk);
    }
  }

  class VideoEncoder {
    const config: EncoderConfig
    var process: Option<Process>
    var encoding: bool
    var hasAudio: bool
    var audioSampleRate: int
    var audioChannels: int
    var audioFilePath: Option<string>

    function State(): Session
      reads this
    {
      Session(process, encoding, hasAudio, audioSampleRate, audioChannels, audioFilePath)
    }

    constructor (config: EncoderConfig)
      requires ValidConfig(config)
      ensures this.config == config
      ensures State() == Session(None, false, false, DefaultSampleRate, DefaultChannels, None)
    {
      this.config := config;
      process := None;
      encoding := false;
      hasAudio := false;
      audioSampleRate := DefaultSampleRate;
      audioChannels := DefaultChannels;
      audioFilePath := None;
    }

    /** VideoEncoder(...): the checked configuration, or the ValueError. */
    static method Create(outputPath: string, width: int, height: int, fps: int := DefaultFps,
                         format: string := "mp4", quality: string := "Alta")
      returns (r: Result<VideoEncoder, EncoderError>)
      ensures r.Ok? ==> Configure(outputPath, width, height, fps, format, quality) == Ok(r.value.config)
      ensures r.Ok? ==>
        && fresh(r.value) && ValidConfig(r.value.config)
        && r.value.State() == Session(None, false, false, DefaultSampleRate, DefaultChannels, None)
      ensures r.Err? ==> Configure(outputPath, width, height, fps, format, quality) == Err(r.error)
    {
      var c := Configure(outputPath, width, height, fps, format, quality);
      if c.Err? {
        return Err(c.error);
      }
      var e := new VideoEncoder(c.value);
      r := Ok(e);
    }

    /** start_encoding: `ffmpegAvailable` is what check_ffmpeg reports and
        `scratchPath` the name the temporary audio file gets. */
    method StartEncoding(ffmpegAvailable: bool, videoInput: string, audioInput: Option<string>, withAudio: bool,
                         sampleRate: int, channels: int, scratchPath: string, fs: FileSystem)
      returns (err: Option<EncoderError>, fs': FileSystem)
      requires ValidConfig(config)
      modifies this
      ensures !ffmpegAvailable ==> err == Some(FfmpegMissing) && State() == old(State()) && fs' == fs
      ensures ffmpegAvailable && old(encoding) ==> err == None && State() == old(State()) && fs' == fs
      ensures ffmpegAvailable && !old(encoding) ==>
        && err == None
        && State() == Session(Some(Process(EncodeArgs(config, videoInput, audioInput, withAudio, sampleRate, channels), true, [])),
                              true, withAudio,
                              if withAudio then sampleRate else old(audioSampleRate),
                              if withAudio then channels else old(audioChannels),
                              if withAudio then Some(scratchPath) else None)
        && fs' == if withAudio then fs[scratchPath := []] else fs
    {
      fs' := fs;
      if !ffmpegAvailable {
        return Some(FfmpegMissing), fs';
      }
      if encoding {
        return None, fs';
      }
      hasAudio := withAudio;
      if withAudio {
        audioSampleRate := sampleRate;
        audioChannels := channels;
      }
      var cmd := EncodeArgs(config, videoInput, audioInput, withAudio, sampleRate, channels);
      process := Some(Process(cmd, true, []));
      if withAudio {
        fs' := fs[scratchPath := []];
        audioFilePath := Some(scratchPath);
      } else {
        audioFilePath := None;
      }
      encoding := true;
      err := None;
    }

    /** write_frame: `pipeOk` is whether the write to ffmpeg's stdin succeeds. */
    method WriteFrame(frame: Bytes, pipeOk: bool)
      modifies this
      ensures State() == SendFrame(old(State()), frame, pipeOk)
    {
      if process.Some? && process.value.stdinOpen {
        if pipeOk {
          process := Some(process.value.(sent := process.value.sent + [frame]));
        } else {
          encoding := false;
        }
      }
    }

    /** write_audio: `writeOk` is whether opening and appending succeed; a
        failure is swallowed. */
    method WriteAudio(data: Bytes, writeOk: bool, fs: FileSystem) returns (fs': FileSystem)
      ensures fs' == AudioWritten(State(), fs, data, writeOk)
    {
      fs' := fs;
      if !hasAudio {
        return;
      }
      if audioFilePath.Some? && audioFilePath.value != "" {
        if writeOk {
          var path := audioFilePath.value;
          var current: Bytes := if path in fs then fs[path] else [];
          fs' := fs[path := current + data];
        }
      }
    }

    /** finish_encoding: `exit` is what the encoding process reports and
        `mux` what a run of the mux command does. */
    method FinishEncoding(exit: EncoderExit, mux: seq<string> -> RunResult, fs: FileSystem)
      returns (r: Result<string, EncoderError>, fs': FileSystem)
      requires ValidConfig(config)
      modifies this
      ensures (r, State(), fs') == Finish(config, old(State()), exit, mux, fs)
    {
      var output := config.outputPath;
      fs' := fs;
      if process.Some? {
        process := Some(process.value.(stdinOpen := false));
        if exit.written.Some? {
          fs' := fs'[output := exit.written.value];
        }
        if exit.returnCode != 0 && output !in fs' {
          return Err(EncodingFailed(exit.stderr)), fs';
        }
        process := None;
        encoding := false;
      }
      if hasAudio && audioFilePath.Some? && audioFilePath.value != "" && audioFilePath.value in fs' {
        fs' := MuxFiles(audioFilePath.value, mux, fs');
      }
      if output in fs' {
        r := Ok(output);
      } else {
        r := Err(OutputMissing(output));
      }
    }

    /** The mux block of finish_encoding on a present scratch audio file. */
    method MuxFiles(audio: string, mux: seq<string> -> RunResult, fs: FileSystem) returns (fs': FileSystem)
      requires ValidConfig(config) && audioFilePath == Some(audio) && audio in fs
      ensures fs' == Mux(config, State(), mux, fs)
    {
      var output := config.outputPath;
      fs' := fs;
      if |fs'[audio]| > 0 {
        var temp := output + ".temp";
        if output in fs' {
          fs' := Rename(fs', output, temp);
        }
        var result := mux(MuxArgs(config, temp, audioSampleRate, audioChannels, audio));
        if result.written.Some? {
          fs' := fs'[output := result.written.value];
        }
        if result.completed {
          if result.returnCode == 0 {
            fs' := RemoveIfExists(fs', temp);
          } else if temp in fs' {
            fs' := Rename(fs', temp, output);
          }
        }
      }
      fs' := RemoveIfExists(fs', audio);
    }
  }
}
