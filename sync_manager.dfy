/** The synchronisation helper that sits on the two buffers
    (src/core/sync_manager.py): a session clock and the nearest-timestamp
    frame selector. */
module Sync {
  import opened Common
  import opened Buffering

  /** get_next_frame looks at no more than this many queued frames. */
  const InspectLimit: nat := 10

  /** abs(timestamp - target). */
  function Distance(e: Entry, target: real): (d: real)
    ensures d >= 0.0
    ensures d == e.timestamp - target || d == target - e.timestamp
  {
    if e.timestamp >= target then e.timestamp - target else target - e.timestamp
  }

  /** The index the scan settles on: a later frame replaces the current best
      only when it is strictly closer, so the first of several equally close
      frames wins. */
  function BestIndex(xs: seq<Entry>, target: real): (b: nat)
    requires |xs| > 0
    ensures b < |xs|
    ensures forall j :: 0 <= j < |xs| ==> Distance(xs[b], target) <= Distance(xs[j], target)
    ensures forall j :: 0 <= j < b ==> Distance(xs[j], target) > Distance(xs[b], target)
  {
    if |xs| == 1 then 0
    else
      var b := BestIndex(xs[..|xs| - 1], target);
      if Distance(xs[|xs| - 1], target) < Distance(xs[b], target) then |xs| - 1 else b
  }

  /** The entries of xs that differ from x, in order: what is put back. */
  function Without(xs: seq<Entry>, x: Entry): (r: seq<Entry>)
    ensures |r| <= |xs| && (x in xs ==> |r| < |xs|)
    ensures forall e :: multiset(r)[e] == if e == x then 0 else multiset(xs)[e]
  {
    if xs == [] then []
    else
      var init := xs[..|xs| - 1];
      var last := xs[|xs| - 1];
      assert xs == init + [last];
      Without(init, x) + (if last == x then [] else [last])
  }

  /** Without on one more element of a prefix. */
  lemma WithoutSnoc(xs: seq<Entry>, j: nat, x: Entry)
    requires j < |xs|
    ensures Without(xs[..j + 1], x) == if xs[j] != x then Without(xs[..j], x) + [xs[j]] else Without(xs[..j], x)
  {
    assert xs[..j + 1][..j] == xs[..j];
  }

  /** Number of frames get_next_frame inspects. */
  function Inspected(s: BufferState): nat
  {
    if |s.items| < InspectLimit then |s.items| else InspectLimit
  }

  /** get_next_frame on the abstract buffer: take the first Inspected frames,
      keep the one nearest the target, and put the others back at the tail. */
  function NextFrame(s: BufferState, target: real): (Option<Entry>, BufferState)
  {
    var n := Inspected(s);
    if n == 0 then (None, s)
    else
      var inspected := s.items[..n];
      var best := inspected[BestIndex(inspected, target)];
      (Some(best), OfferAll(s.(items := s.items[n..]), Without(inspected, best)))
  }

  /** The frame returned is one of the inspected ones, no inspected frame is
      closer to the target, and every inspected frame before it is strictly
      farther; an empty buffer gives None and stays as it is. */
  lemma NextFrameIsNearest(s: BufferState, target: real)
    ensures s.items == [] ==> NextFrame(s, target) == (None, s)
    ensures s.items != [] ==>
      && NextFrame(s, target).0.Some?
      && exists k :: 0 <= k < Inspected(s) && s.items[k] == NextFrame(s, target).0.value
           && (forall j :: 0 <= j < Inspected(s) ==> Distance(s.items[k], target) <= Distance(s.items[j], target))
           && (forall j :: 0 <= j < k ==> Distance(s.items[j], target) > Distance(s.items[k], target))
  {
    if s.items != [] {
      var n := Inspected(s);
      var inspected := s.items[..n];
      var k := BestIndex(inspected, target);
      assert s.items[k] == inspected[k];
      assert forall j :: 0 <= j < n ==> s.items[j] == inspected[j];
    }
  }

  /** On a buffer within its capacity every put-back is accepted: the queue
      becomes the uninspected frames followed by the other inspected frames in
      inspection order, total_frames grows by their number and nothing is
      dropped. */
  lemma NextFrameRequeues(s: BufferState, target: real)
    requires Bounded(s) && s.items != []
    ensures var n := Inspected(s);
      var best := NextFrame(s, target).0.value;
      var s' := NextFrame(s, target).1;
      && s'.items == s.items[n..] + Without(s.items[..n], best)
      && s'.accepted == s.accepted + |Without(s.items[..n], best)|
      && s'.dropped == s.dropped
      && s'.maxSize == s.maxSize
  {
    var n := Inspected(s);
    var inspected := s.items[..n];
    var best := inspected[BestIndex(inspected, target)];
    var w := Without(inspected, best);
    var rest := s.(items := s.items[n..]);
    OfferAllPrefix(rest, w);
    assert |w| < n;
    assert Admitted(rest, |w|) == |w|;
    assert w[..|w|] == w;
  }

  /** What leaves the buffer for good is the returned frame together with
      every inspected copy equal to it; every other frame is still queued, as
      often as before. */
  lemma NextFrameLosesOnlyCopiesOfBest(s: BufferState, target: real)
    requires Bounded(s) && s.items != []
    ensures var best := NextFrame(s, target).0.value;
      forall e :: multiset(NextFrame(s, target).1.items)[e]
        + (if e == best then multiset(s.items[..Inspected(s)])[e] else 0) == multiset(s.items)[e]
  {
    NextFrameRequeues(s, target);
    var n := Inspected(s);
    var inspected := s.items[..n];
    var best := inspected[BestIndex(inspected, target)];
    var w := Without(inspected, best);
    assert s.items == inspected + s.items[n..];
    assert multiset(s.items) == multiset(inspected) + multiset(s.items[n..]);
    assert multiset(NextFrame(s, target).1.items) == multiset(s.items[n..]) + multiset(w);
  }

  class SyncManager {
    const frameBuffer: FrameBuffer
    const audioBuffer: AudioBuffer
    var startTime: Option<real>
    var videoOffset: real
    var audioOffset: real

    constructor (frameBuffer: FrameBuffer, audioBuffer: AudioBuffer)
      ensures this.frameBuffer == frameBuffer && this.audioBuffer == audioBuffer
      ensures startTime == None && videoOffset == 0.0 && audioOffset == 0.0
    {
      this.frameBuffer := frameBuffer;
      this.audioBuffer := audioBuffer;
      this.startTime := None;
      this.videoOffset := 0.0;
      this.audioOffset := 0.0;
    }

    /** start(): anchor the clock at `now` and zero both offsets. */
    method Start(now: real)
      modifies this
      ensures startTime == Some(now) && videoOffset == 0.0 && audioOffset == 0.0
    {
      startTime := Some(now);
      videoOffset := 0.0;
      audioOffset := 0.0;
    }

    /** get_current_time(): seconds since start, or 0.0 before any start. */
    function CurrentTime(now: real): (t: real)
      reads this
      ensures startTime.None? ==> t == 0.0
      ensures startTime.Some? ==> startTime.value + t == now
    {
      if startTime.None? then 0.0 else now - startTime.value
    }

    /** The target a caller gets when it passes None. */
    function TargetOr(target: Option<real>, now: real): real
      reads this
    {
      if target.Some? then target.value else CurrentTime(now)
    }

    /** get_next_frame(target_time). */
    method GetNextFrame(target: Option<real>, now: real) returns (r: Option<Entry>)
      requires frameBuffer.Valid()
      modifies frameBuffer
      ensures frameBuffer.Valid()
      ensures (r, frameBuffer.State()) == NextFrame(old(frameBuffer.State()), old(TargetOr(target, now)))
    {
      var t := if target.Some? then target.value else CurrentTime(now);
      ghost var s0 := frameBuffer.State();
      var size := frameBuffer.Size();
      var count := if size < InspectLimit then size else InspectLimit;
      assert count == Inspected(s0);
      var best, temp := ScanFront(count, t);
      if count > 0 {
        Requeue(temp, best.value);
      }
      r := best;
    }

    /** The first loop of get_next_frame: take `count` frames, remembering
        each and the nearest one so far. */
    method ScanFront(count: nat, t: real) returns (best: Option<Entry>, temp: seq<Entry>)
      requires frameBuffer.Valid() && count <= |frameBuffer.buffer|
      modifies frameBuffer
      ensures frameBuffer.Valid()
      ensures frameBuffer.State() == old(frameBuffer.State()).(items := old(frameBuffer.buffer)[count..])
      ensures temp == old(frameBuffer.buffer)[..count]
      ensures best.None? <==> count == 0
      ensures count > 0 ==> best == Some(temp[BestIndex(temp, t)])
    {
      ghost var s0 := frameBuffer.State();
      best := None;
      var bestDiff: real := 0.0;
      temp := [];
      var i := 0;
      while i < count
        invariant 0 <= i <= count
        invariant frameBuffer.Valid()
        invariant frameBuffer.State() == s0.(items := s0.items[i..])
        invariant temp == s0.items[..i]
        invariant best.None? <==> i == 0
        invariant i > 0 ==> best == Some(temp[BestIndex(temp, t)]) && bestDiff == Distance(best.value, t)
      {
        var frameData := frameBuffer.Get(0.01);
        assert frameData == Some(s0.items[i]);
        if frameData.Some? {
          var Entry(frame, timestamp) := frameData.value;
          var diff := Distance(Entry(frame, timestamp), t);
          assert (temp + [Entry(frame, timestamp)])[..i] == temp;
          if best.None? || diff < bestDiff {
            bestDiff := diff;
            best := Some(Entry(frame, timestamp));
          }
          temp := temp + [Entry(frame, timestamp)];
          assert temp == s0.items[..i + 1];
        }
        i := i + 1;
      }
    }

    /** The second loop of get_next_frame: put back every remembered frame that
        is not the chosen one, in the order they were taken. */
    method Requeue(temp: seq<Entry>, best: Entry)
      requires frameBuffer.Valid()
      modifies frameBuffer
      ensures frameBuffer.Valid()
      ensures frameBuffer.State() == OfferAll(old(frameBuffer.State()), Without(temp, best))
    {
      ghost var rest := frameBuffer.State();
      var j := 0;
      while j < |temp|
        invariant 0 <= j <= |temp|
        invariant frameBuffer.Valid()
        invariant frameBuffer.State() == OfferAll(rest, Without(temp[..j], best))
      {
        WithoutSnoc(temp, j, best);
        if temp[j] != best {
          OfferAllSnoc(rest, Without(temp[..j], best), temp[j]);
          frameBuffer.Put(temp[j].payload, temp[j].timestamp);
        }
        j := j + 1;
      }
      assert temp[..|temp|] == temp;
    }

    /** get_next_audio(target_time): the target is computed and then ignored;
        the oldest chunk is returned. */
    method GetNextAudio(target: Option<real>, now: real) returns (r: Option<Entry>)
      requires audioBuffer.Valid()
      modifies audioBuffer
      ensures audioBuffer.Valid()
      ensures (r, audioBuffer.State()) == Take(old(audioBuffer.State()))
    {
      var t := if target.Some? then target.value else CurrentTime(now);
      r := audioBuffer.Get(0.01);
    }

    /** reset(): forget the start and zero both offsets. */
    method Reset()
      modifies this
      ensures startTime == None && videoOffset == 0.0 && audioOffset == 0.0
    {
      startTime := None;
      videoOffset := 0.0;
      audioOffset := 0.0;
    }
  }
}
