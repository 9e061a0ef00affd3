/** Device selection and capture bookkeeping of the audio grabber
    (src/core/audio_capture.py). PyAudio is an input: the device table it
    reports (an entry is None when looking it up raises), the index of its
    default input device (None when asking for it raises), whether a stream
    opens, and the sequence of outcomes of the stream's events. */
module Audio {
  import opened Common
  import opened Text

  const DefaultSampleRate: int := 44100
  const ChannelsMono: int := 1
  const ChannelsStereo: int := 2
  /** Frames per buffer of the stream, and per read. */
  const ChunkSize: int := 1024
  const BytesPerMegabyte: int := 1024 * 1024

  /** What get_device_info_by_index reports. */
  datatype RawDeviceInfo = RawDeviceInfo(name: string, maxInputChannels: int, defaultSampleRate: real)

  /** The PyAudio instance as far as the recorder sees it. */
  datatype AudioBackend = AudioBackend(infos: seq<Option<RawDeviceInfo>>, defaultInput: Option<int>)

  /** The device dictionaries the class hands out. */
  datatype Device = Device(index: int, name: string, channels: int, sampleRate: int)

  datatype AudioError =
    | NoInputDevices        // RuntimeError: no input device found
    | OpenFailed(device: int)

  /** One read of the stream: the bytes it returned, or the exception it raised. */
  datatype ReadEvent = Chunk(data: Bytes) | ReadFailure

  /** Which capture loop start_capture handed to the thread. */
  datatype CaptureMode = NoThread | QueueMode | CallbackMode

  /** int(x) for a float: truncation toward zero. */
  function Truncate(x: real): (n: int)
    ensures x >= 0.0 ==> n as real <= x < n as real + 1.0
    ensures x < 0.0 ==> n as real - 1.0 < x <= n as real
  {
    if x >= 0.0 then x.Floor else -((-x).Floor)
  }

  function MakeDevice(i: int, info: RawDeviceInfo): Device
  {
    Device(i, info.name, info.maxInputChannels, Truncate(info.defaultSampleRate))
  }

  predicate IsInput(info: Option<RawDeviceInfo>)
  {
    info.Some? && info.value.maxInputChannels > 0
  }

  /** The list get_audio_devices builds from the device table. */
  function InputDevices(infos: seq<Option<RawDeviceInfo>>): seq<Device>
  {
    if infos == [] then []
    else
      var n := |infos| - 1;
      InputDevices(infos[..n]) + (if IsInput(infos[n]) then [MakeDevice(n, infos[n].value)] else [])
  }

  /** Every listed device is an input device of the table, described by its
      own entry, and the list is in ascending index order. */
  lemma {:induction false} InputDevicesSound(infos: seq<Option<RawDeviceInfo>>)
    ensures forall k :: 0 <= k < |InputDevices(infos)| ==>
      var d := InputDevices(infos)[k];
      0 <= d.index < |infos| && IsInput(infos[d.index]) && d == MakeDevice(d.index, infos[d.index].value)
    ensures forall k, l :: 0 <= k < l < |InputDevices(infos)| ==>
      InputDevices(infos)[k].index < InputDevices(infos)[l].index
  {
    if infos != [] {
      var n := |infos| - 1;
      InputDevicesSound(infos[..n]);
      assert forall j :: 0 <= j < n ==> infos[..n][j] == infos[j];
    }
  }

  /** Every input device of the table is listed. */
  lemma {:induction false} InputDevicesComplete(infos: seq<Option<RawDeviceInfo>>, i: int)
    requires 0 <= i < |infos| && IsInput(infos[i])
    ensures exists k :: 0 <= k < |InputDevices(infos)| && InputDevices(infos)[k].index == i
  {
    var n := |infos| - 1;
    var r := InputDevices(infos);
    if i == n {
      assert r[|r| - 1].index == i;
    } else {
      InputDevicesComplete(infos[..n], i);
      var k :| 0 <= k < |InputDevices(infos[..n])| && InputDevices(infos[..n])[k].index == i;
      assert r[k] == InputDevices(infos[..n])[k];
    }
  }

  /** The query of find_device_by_name against one device, case-insensitively. */
  predicate NameMatches(d: Device, query: string)
  {
    Contains(Lower(d.name), Lower(query))
  }

  /** The first device whose name contains the query. */
  function FirstMatch(devices: seq<Device>, query: string): Option<Device>
  {
    if devices == [] then None
    else if NameMatches(devices[0], query) then Some(devices[0])
    else FirstMatch(devices[1..], query)
  }

  /** FirstMatch finds a matching device with no match before it, and finds
      nothing only when no device matches. */
  lemma {:induction false} FirstMatchIsFirst(devices: seq<Device>, query: string)
    ensures FirstMatch(devices, query).None? ==>
      forall k :: 0 <= k < |devices| ==> !NameMatches(devices[k], query)
    ensures FirstMatch(devices, query).Some? ==>
      exists k :: 0 <= k < |devices| && devices[k] == FirstMatch(devices, query).value
        && NameMatches(devices[k], query)
        && forall j :: 0 <= j < k ==> !NameMatches(devices[j], query)
  {
    if devices != [] && !NameMatches(devices[0], query) {
      FirstMatchIsFirst(devices[1..], query);
      if FirstMatch(devices, query).Some? {
        var k :| 0 <= k < |devices[1..]| && devices[1..][k] == FirstMatch(devices, query).value
          && NameMatches(devices[1..][k], query)
          && forall j :: 0 <= j < k ==> !NameMatches(devices[1..][j], query);
        assert forall j :: 1 <= j < k + 1 ==> devices[j] == devices[1..][j - 1];
        assert devices[k + 1] == devices[1..][k];
      }
    } else if devices != [] {
      assert devices[0] == FirstMatch(devices, query).value;
    }
  }

  /** The platform reports a default input device whose table entry can be read. */
  predicate HasReadableDefault(b: AudioBackend)
  {
    b.defaultInput.Some? && 0 <= b.defaultInput.value < |b.infos| && b.infos[b.defaultInput.value].Some?
  }

  /** get_default_input_device: the platform default when its table entry can
      be read, otherwise the first input device, otherwise the RuntimeError. */
  function DefaultDevice(b: AudioBackend): Result<Device, AudioError>
  {
    if HasReadableDefault(b) then
      Ok(MakeDevice(b.defaultInput.value, b.infos[b.defaultInput.value].value))
    else if InputDevices(b.infos) != [] then Ok(InputDevices(b.infos)[0])
    else Err(NoInputDevices)
  }

  /** The default lookup fails only when there is no readable default and no
      input device at all; its fallback is the first input device. */
  lemma DefaultDeviceFallback(b: AudioBackend)
    ensures DefaultDevice(b).Err? <==>
      !HasReadableDefault(b)
      && InputDevices(b.infos) == []
    ensures DefaultDevice(b).Err? ==> DefaultDevice(b).error == NoInputDevices
    ensures InputDevices(b.infos) != [] ==> DefaultDevice(b).Ok?
    ensures (!HasReadableDefault(b)
      && InputDevices(b.infos) != []) ==> DefaultDevice(b) == Ok(InputDevices(b.infos)[0])
  {
  }

  /** The chunks a capture loop delivers: every read up to the first failure. */
  function Delivered(events: seq<ReadEvent>): seq<Bytes>
  {
    if events == [] || events[0].ReadFailure? then [] else [events[0].data] + Delivered(events[1..])
  }

  /** The delivered chunks are the payloads of the reads in order, and the
      read right after them, if any, is the failure that ended the loop. */
  lemma {:induction false} DeliveredStopsAtFailure(events: seq<ReadEvent>)
    ensures |Delivered(events)| <= |events|
    ensures forall j :: 0 <= j < |Delivered(events)| ==> events[j] == Chunk(Delivered(events)[j])
    ensures |Delivered(events)| < |events| ==> events[|Delivered(events)|].ReadFailure?
  {
    if events != [] && events[0].Chunk? {
      DeliveredStopsAtFailure(events[1..]);
      assert forall j :: 1 <= j < |Delivered(events)| ==> Delivered(events)[j] == Delivered(events[1..])[j - 1];
    }
  }

  class AudioCapture {
    const sampleRate: int
    const channels: int
    const backend: AudioBackend
    /** self.audio is not None (close() terminates it). */
    var audioOpen: bool
    /** The device the open stream reads from, or None. */
    var stream: Option<int>
    var isRecording: bool
    /** The unbounded audio_queue. */
    var audioQueue: seq<Bytes>
    var mode: CaptureMode
    var framesCaptured: seq<Bytes>
    var hasDevices: bool

    constructor (backend: AudioBackend, sampleRate: int := DefaultSampleRate, channels: int := ChannelsStereo)
      ensures this.backend == backend && this.sampleRate == sampleRate && this.channels == channels
      ensures audioOpen && stream == None && !isRecording && audioQueue == []
      ensures mode == NoThread && framesCaptured == [] && !hasDevices
    {
      this.backend := backend;
      this.sampleRate := sampleRate;
      this.channels := channels;
      audioOpen := true;
      stream := None;
      isRecording := false;
      audioQueue := [];
      mode := NoThread;
      framesCaptured := [];
      hasDevices := false;
    }

    /** get_audio_devices. */
    method GetAudioDevices() returns (devices: seq<Device>)
      modifies this
      ensures devices == InputDevices(backend.infos)
      ensures hasDevices == (devices != [])
      ensures audioOpen == old(audioOpen) && stream == old(stream) && isRecording == old(isRecording)
      ensures audioQueue == old(audioQueue) && mode == old(mode) && framesCaptured == old(framesCaptured)
    {
      var infos := backend.infos;
      devices := [];
      var i := 0;
      while i < |infos|
        invariant 0 <= i <= |infos|
        invariant devices == InputDevices(infos[..i])
      {
        assert infos[..i + 1][..i] == infos[..i];
        var info := infos[i];
        if info.Some? && info.value.maxInputChannels > 0 {
          devices := devices + [Device(i, info.value.name, info.value.maxInputChannels,
                                       Truncate(info.value.defaultSampleRate))];
        }
        i := i + 1;
      }
      assert infos[..|infos|] == infos;
      hasDevices := |devices| > 0;
    }

    /** find_device_by_name. */
    method FindDeviceByName(name: string) returns (r: Option<Device>)
      modifies this
      ensures r == FirstMatch(InputDevices(backend.infos), name)
      ensures hasDevices == (InputDevices(backend.infos) != [])
      ensures audioOpen == old(audioOpen) && stream == old(stream) && isRecording == old(isRecording)
      ensures audioQueue == old(audioQueue) && mode == old(mode) && framesCaptured == old(framesCaptured)
    {
      var devices := GetAudioDevices();
      var i := 0;
      while i < |devices|
        invariant 0 <= i <= |devices|
        invariant FirstMatch(devices, name) == FirstMatch(devices[i..], name)
      {
        assert devices[i..][1..] == devices[i + 1..];
        if Contains(Lower(devices[i].name), Lower(name)) {
          return Some(devices[i]);
        }
        i := i + 1;
      }
      r := None;
    }

    /** get_default_input_device; only the fallback enumerates the devices. */
    method GetDefaultInputDevice() returns (r: Result<Device, AudioError>)
      modifies this
      ensures r == DefaultDevice(backend)
      ensures HasReadableDefault(backend) ==> hasDevices == old(hasDevices)
      ensures !HasReadableDefault(backend) ==> hasDevices == (InputDevices(backend.infos) != [])
      ensures audioOpen == old(audioOpen) && stream == old(stream) && isRecording == old(isRecording)
      ensures audioQueue == old(audioQueue) && mode == old(mode) && framesCaptured == old(framesCaptured)
    {
      var d := backend.defaultInput;
      if d.Some? && 0 <= d.value < |backend.infos| && backend.infos[d.value].Some? {
        var info := backend.infos[d.value].value;
        return Ok(Device(d.value, info.name, info.maxInputChannels, Truncate(info.defaultSampleRate)));
      }
      var devices := GetAudioDevices();
      if devices != [] {
        return Ok(devices[0]);
      }
      r := Err(NoInputDevices);
    }

    /** start_capture(device_index, callback); `openOk` is whether the stream
        opens and `withCallback` whether a callback was passed. The result is
        None on return and the error otherwise. */
    method StartCapture(deviceIndex: Option<int>, withCallback: bool, openOk: bool) returns (err: Option<AudioError>)
      modifies this
      ensures old(isRecording) ==>
        && err == None && stream == old(stream) && isRecording
        && audioQueue == old(audioQueue) && mode == old(mode) && framesCaptured == old(framesCaptured)
      ensures !old(isRecording) && InputDevices(backend.infos) == [] ==>
        && err == Some(NoInputDevices) && stream == old(stream) && !isRecording
        && framesCaptured == old(framesCaptured) && mode == old(mode)
      ensures !old(isRecording) && InputDevices(backend.infos) != [] ==>
        var device := if deviceIndex.Some? then deviceIndex.value else DefaultDevice(backend).value.index;
        if openOk then
          err == None && isRecording && stream == Some(device) && framesCaptured == []
          && mode == (if withCallback then CallbackMode else QueueMode)
        else
          err == Some(OpenFailed(device)) && !isRecording && stream == old(stream)
          && framesCaptured == old(framesCaptured) && mode == old(mode)
      ensures hasDevices == if old(isRecording) then old(hasDevices) else InputDevices(backend.infos) != []
      ensures audioOpen == old(audioOpen) && audioQueue == old(audioQueue)
    {
      if isRecording {
        return None;
      }
      var devices := GetAudioDevices();
      if devices == [] {
        return Some(NoInputDevices);
      }
      var index := deviceIndex;
      if index.None? {
        DefaultDeviceFallback(backend);
        var device := GetDefaultInputDevice();
        if device.Ok? {
          index := Some(device.value.index);
        } else {
          // The default lookup falls back to the same non-empty device list
          // itself, so the RuntimeError handler is never entered.
          assert false;
        }
      }
      if !openOk {
        return Some(OpenFailed(index.value));
      }
      stream := index;
      isRecording := true;
      framesCaptured := [];
      mode := if withCallback then CallbackMode else QueueMode;
      err := None;
    }

    /** _capture_to_queue run until the reads are exhausted or one fails:
        every chunk goes to the queue and to frames_captured. A stream that is
        not open fails on its first read. */
    method CaptureToQueue(events: seq<ReadEvent>)
      modifies this
      ensures var got := if old(isRecording) && old(stream).Some? then Delivered(events) else [];
        audioQueue == old(audioQueue) + got && framesCaptured == old(framesCaptured) + got
      ensures audioOpen == old(audioOpen) && stream == old(stream) && isRecording == old(isRecording)
      ensures mode == old(mode) && hasDevices == old(hasDevices)
    {
      if !isRecording || stream.None? {
        return;
      }
      var queue := audioQueue;
      var frames := framesCaptured;
      var i := 0;
      while i < |events| && events[i].Chunk?
        invariant 0 <= i <= |events|
        invariant audioQueue + Delivered(events) == queue + Delivered(events[i..])
        invariant framesCaptured + Delivered(events) == frames + Delivered(events[i..])
      {
        var data := events[i].data;
        assert events[i..][1..] == events[i + 1..];
        queue := queue + [data];
        frames := frames + [data];
        i := i + 1;
      }
      if i < |events| {
        assert Delivered(events[i..]) == [];
      } else {
        assert events[i..] == [];
      }
      audioQueue := queue;
      framesCaptured := frames;
    }

    /** _capture_with_callback run the same way: the chunks the callback
        receives, in order; nothing is recorded in the object. */
    method CaptureWithCallback(events: seq<ReadEvent>) returns (passed: seq<Bytes>)
      ensures passed == if isRecording && stream.Some? then Delivered(events) else []
    {
      passed := [];
      if !isRecording || stream.None? {
        return;
      }
      var i := 0;
      while i < |events| && events[i].Chunk?
        invariant 0 <= i <= |events|
        invariant Delivered(events) == passed + Delivered(events[i..])
      {
        assert events[i..][1..] == events[i + 1..];
        passed := passed + [events[i].data];
        i := i + 1;
      }
      if i < |events| {
        assert Delivered(events[i..]) == [];
      } else {
        assert events[i..] == [];
      }
    }

    /** get_audio_data: the oldest queued chunk, or None. */
    method GetAudioData(timeout: real := 0.1) returns (r: Option<Bytes>)
      modifies this
      ensures old(audioQueue) == [] ==> r == None && audioQueue == []
      ensures old(audioQueue) != [] ==> r == Some(old(audioQueue)[0]) && audioQueue == old(audioQueue)[1..]
      ensures audioOpen == old(audioOpen) && stream == old(stream) && isRecording == old(isRecording)
      ensures mode == old(mode) && framesCaptured == old(framesCaptured) && hasDevices == old(hasDevices)
    {
      if audioQueue == [] {
        return None;
      }
      r := Some(audioQueue[0]);
      audioQueue := audioQueue[1..];
    }

    /** get_all_captured_frames: the chunks joined in capture order. */
    function GetAllCapturedFrames(): (r: Bytes)
      reads this
      ensures |r| == TotalLength(framesCaptured)
    {
      ConcatLength(framesCaptured);
      Concat(framesCaptured)
    }

    /** get_captured_size_mb: total bytes over 1024 * 1024. */
    function GetCapturedSizeMb(): (mb: real)
      reads this
      ensures mb >= 0.0
      ensures mb * (BytesPerMegabyte as real) == |GetAllCapturedFrames()| as real
    {
      TotalLength(framesCaptured) as real / BytesPerMegabyte as real
    }

    /** stop_capture: the flag drops and an open stream is closed. */
    method StopCapture()
      modifies this
      ensures !isRecording && stream == None
      ensures audioOpen == old(audioOpen) && audioQueue == old(audioQueue) && mode == old(mode)
      ensures framesCaptured == old(framesCaptured) && hasDevices == old(hasDevices)
    {
      isRecording := false;
      if stream.Some? {
        stream := None;
      }
    }

    /** close: stop, then terminate PyAudio. */
    method Close()
      modifies this
      ensures !isRecording && stream == None && !audioOpen
      ensures audioQueue == old(audioQueue) && mode == old(mode)
      ensures framesCaptured == old(framesCaptured) && hasDevices == old(hasDevices)
    {
      StopCapture();
      if audioOpen {
        audioOpen := false;
      }
    }
  }
}
