/** Screen geometry and pixel conversion of the screen grabber
    (src/core/screen_capture.py). The mss backend is an input: the monitor
    list it reports (or None when it cannot open a display) and a grab
    function from a rectangle to the raw image it returns. */
module Screen {
  import opened Common

  /** One entry of `monitors`: an mss monitor dictionary. */
  datatype Monitor = Monitor(width: int, height: int, top: int, left: int)

  /** The rectangle handed to `grab`. */
  datatype Rect = Rect(top: int, left: int, width: int, height: int)

  /** A captured picture: rows of pixels, `channels` bytes per pixel. */
  datatype Image = Image(height: nat, width: nat, channels: nat, data: Bytes)

  datatype CaptureError =
    | NoDisplay          // the RuntimeError raised without a display
    | IndexError(index: int)
    | GrabFailed         // mss could not grab the rectangle
    | NoBackend          // sct is None: calling grab on it fails

  /** What init falls back to when the display cannot be opened. */
  const HeadlessMonitors: seq<Monitor> := [Monitor(1920, 1080, 0, 0)]

  predicate WellShaped(img: Image)
  {
    |img.data| == img.height * img.width * img.channels
  }

  /** Python list indexing: negative indices count from the end. */
  function PyIndex<T>(xs: seq<T>, i: int): (r: Result<T, CaptureError>)
    ensures r.Ok? <==> -|xs| <= i < |xs|
    ensures r.Ok? && i >= 0 ==> r.value == xs[i]
    ensures r.Ok? && i < 0 ==> r.value == xs[|xs| + i]
    ensures r.Err? ==> r.error == IndexError(i)
  {
    if 0 <= i < |xs| then Ok(xs[i])
    else if -|xs| <= i < 0 then Ok(xs[|xs| + i])
    else Err(IndexError(i))
  }

  /** The position Python list indexing reads: negative indices count from
      the end. */
  function Position(n: int, i: int): (p: int)
    requires -n <= i < n
    ensures 0 <= p < n
    ensures i >= 0 ==> p == i
    ensures i < 0 ==> p == n + i
  {
    if i < 0 then n + i else i
  }

  /** img[:, :, :3] on BGRA bytes: the first three bytes of every 4-byte pixel. */
  function DropAlpha(px: Bytes): (r: Bytes)
    decreases |px|
  {
    if |px| < 4 then [] else px[..3] + DropAlpha(px[4..])
  }

  lemma {:induction false} DropAlphaLength(px: Bytes)
    ensures |DropAlpha(px)| == |px| / 4 * 3
  {
    if |px| >= 4 {
      DropAlphaLength(px[4..]);
      assert |px[4..]| / 4 == |px| / 4 - 1;
    }
  }

  /** Pixel k of the result is pixel k of the input without its alpha byte. */
  lemma {:induction false} DropAlphaKeepsColour(px: Bytes, k: nat, c: nat)
    requires k < |px| / 4 && c < 3
    ensures 3 * k + c < |DropAlpha(px)|
    ensures DropAlpha(px)[3 * k + c] == px[4 * k + c]
  {
    DropAlphaLength(px);
    if k > 0 {
      DropAlphaKeepsColour(px[4..], k - 1, c);
      assert DropAlpha(px) == px[..3] + DropAlpha(px[4..]);
      assert DropAlpha(px)[3 * k + c] == DropAlpha(px[4..])[3 * (k - 1) + c];
    }
  }

  /** The BGR conversion applied after every grab: only a 4-channel image changes. */
  function ToBgr(img: Image): Image
  {
    if img.channels == 4 then Image(img.height, img.width, 3, DropAlpha(img.data)) else img
  }

  /** A well-shaped 4-channel image becomes a well-shaped 3-channel image of
      the same size whose pixels keep their first three bytes in order; any
      other image is returned unchanged. */
  lemma ToBgrShape(img: Image)
    requires WellShaped(img)
    ensures img.channels != 4 ==> ToBgr(img) == img
    ensures img.channels == 4 ==>
      && ToBgr(img).channels == 3 && ToBgr(img).height == img.height && ToBgr(img).width == img.width
      && |ToBgr(img).data| == img.height * img.width * 3
      && WellShaped(ToBgr(img))
  {
    if img.channels == 4 {
      DropAlphaLength(img.data);
      var n := img.height * img.width;
      assert |img.data| == n * 4;
      assert |img.data| / 4 == n;
    }
  }

  /** PIL's frombytes('RGB', size, bgra, 'raw', 'BGRX'): each 4-byte pixel
      B, G, R, X becomes the three bytes R, G, B. */
  function BgrxToRgb(px: Bytes): (r: Bytes)
    decreases |px|
  {
    if |px| < 4 then [] else [px[2], px[1], px[0]] + BgrxToRgb(px[4..])
  }

  lemma {:induction false} BgrxToRgbSwaps(px: Bytes, k: nat)
    requires k < |px| / 4
    ensures 3 * k + 2 < |BgrxToRgb(px)|
    ensures BgrxToRgb(px)[3 * k] == px[4 * k + 2]
    ensures BgrxToRgb(px)[3 * k + 1] == px[4 * k + 1]
    ensures BgrxToRgb(px)[3 * k + 2] == px[4 * k]
  {
    var rest := px[4..];
    assert BgrxToRgb(px) == [px[2], px[1], px[0]] + BgrxToRgb(rest);
    if k > 0 {
      BgrxToRgbSwaps(rest, k - 1);
      assert rest[4 * (k - 1)] == px[4 * k];
      assert rest[4 * (k - 1) + 1] == px[4 * k + 1];
      assert rest[4 * (k - 1) + 2] == px[4 * k + 2];
    }
  }

  class ScreenCapture {
    /** has_display; init sets `sct` to None exactly when it is false. */
    const hasDisplay: bool
    const monitors: seq<Monitor>
    /** The mss handle has been closed. */
    var closed: bool

    /** __init__: `backend` is the monitor list of a working mss instance, or
        None when opening the display raised. */
    constructor (backend: Option<seq<Monitor>>)
      ensures hasDisplay == backend.Some?
      ensures monitors == if backend.Some? then backend.value else HeadlessMonitors
      ensures !closed
    {
      hasDisplay := backend.Some?;
      monitors := if backend.Some? then backend.value else HeadlessMonitors;
      closed := false;
    }

    /** get_monitors. */
    function GetMonitors(): (r: seq<Monitor>)
      ensures r == monitors
    {
      monitors
    }

    /** get_primary_monitor: monitors[0]. */
    function GetPrimaryMonitor(): (r: Result<Monitor, CaptureError>)
      ensures r.Ok? <==> |monitors| > 0
      ensures r.Ok? ==> r.value == monitors[0]
    {
      PyIndex(monitors, 0)
    }

    /** get_screen_size(i): (width, height) of monitors[i]; index 0 takes its
        own branch in the code but reads the same entry. */
    function GetScreenSize(monitorIndex: int): (r: Result<(int, int), CaptureError>)
      ensures -|monitors| <= monitorIndex < |monitors| ==>
        var m := monitors[Position(|monitors|, monitorIndex)];
        r == Ok((m.width, m.height))
      ensures !(-|monitors| <= monitorIndex < |monitors|) ==> r == Err(IndexError(monitorIndex))
    {
      var m := if monitorIndex == 0 then PyIndex(monitors, 0) else PyIndex(monitors, monitorIndex);
      if m.Err? then Err(m.error) else Ok((m.value.width, m.value.height))
    }

    /** The rectangle capture_full_screen grabs: the monitor itself. */
    static function MonitorRect(m: Monitor): Rect
    {
      Rect(m.top, m.left, m.width, m.height)
    }

    /** The rectangle capture_region grabs: the offset is relative to the
        monitor's corner, the size is passed through. */
    static function RegionRect(m: Monitor, x: int, y: int, width: int, height: int): (r: Rect)
      ensures r.top - m.top == y && r.left - m.left == x
      ensures r.width == width && r.height == height
    {
      Rect(m.top + y, m.left + x, width, height)
    }

    /** Grab a rectangle and convert it to BGR. */
    static function GrabBgr(grab: Rect -> Option<Image>, rect: Rect): Result<Image, CaptureError>
    {
      var shot := grab(rect);
      if shot.None? then Err(GrabFailed) else Ok(ToBgr(shot.value))
    }

    /** capture_full_screen(monitor_index). */
    function CaptureFullScreen(monitorIndex: int, grab: Rect -> Option<Image>): (r: Result<Image, CaptureError>)
      ensures !hasDisplay ==> r == Err(NoDisplay)
      ensures hasDisplay && -|monitors| <= monitorIndex < |monitors| ==>
        var rect := MonitorRect(monitors[Position(|monitors|, monitorIndex)]);
        r == if grab(rect).None? then Err(GrabFailed) else Ok(ToBgr(grab(rect).value))
      ensures hasDisplay && !(-|monitors| <= monitorIndex < |monitors|) ==> r == Err(IndexError(monitorIndex))
    {
      if !hasDisplay then Err(NoDisplay)
      else
        var m := PyIndex(monitors, monitorIndex);
        if m.Err? then Err(m.error) else GrabBgr(grab, MonitorRect(m.value))
    }

    /** capture_region(x, y, width, height, monitor_index). */
    function CaptureRegion(x: int, y: int, width: int, height: int, monitorIndex: int,
                           grab: Rect -> Option<Image>): (r: Result<Image, CaptureError>)
      ensures !hasDisplay ==> r == Err(NoDisplay)
      ensures hasDisplay && -|monitors| <= monitorIndex < |monitors| ==>
        var m := monitors[Position(|monitors|, monitorIndex)];
        var rect := Rect(m.top + y, m.left + x, width, height);
        r == if grab(rect).None? then Err(GrabFailed) else Ok(ToBgr(grab(rect).value))
      ensures hasDisplay && !(-|monitors| <= monitorIndex < |monitors|) ==> r == Err(IndexError(monitorIndex))
    {
      if !hasDisplay then Err(NoDisplay)
      else
        var m := PyIndex(monitors, monitorIndex);
        if m.Err? then Err(m.error) else GrabBgr(grab, RegionRect(m.value, x, y, width, height))
    }

    /** capture_to_pil(monitor_index): no display check, so without a backend
        the call on `sct` fails. */
    function CaptureToPil(monitorIndex: int, grab: Rect -> Option<Image>): (r: Result<Image, CaptureError>)
      ensures !hasDisplay ==> r.Err?
      ensures r.Ok? ==> r.value.channels == 3
    {
      var m := PyIndex(monitors, monitorIndex);
      if m.Err? then Err(m.error)
      else if !hasDisplay then Err(NoBackend)
      else
        var shot := grab(MonitorRect(m.value));
        if shot.None? then Err(GrabFailed)
        else Ok(Image(shot.value.height, shot.value.width, 3, BgrxToRgb(shot.value.data)))
    }

    /** close(): only an existing backend is closed. */
    method Close()
      modifies this
      ensures closed == (old(closed) || hasDisplay)
    {
      if hasDisplay {
        closed := true;
      }
    }
  }

  /** Without a display the grabber reports the single 1920x1080 fallback
      monitor, and every capture raises. */
  lemma HeadlessFallback(sc: ScreenCapture, i: int, grab: Rect -> Option<Image>)
    requires !sc.hasDisplay && sc.monitors == HeadlessMonitors
    ensures sc.GetScreenSize(0) == Ok((1920, 1080))
    ensures sc.GetPrimaryMonitor() == Ok(Monitor(1920, 1080, 0, 0))
    ensures sc.CaptureFullScreen(i, grab) == Err(NoDisplay)
    ensures sc.CaptureRegion(0, 0, 1, 1, i, grab) == Err(NoDisplay)
  {
  }
}
