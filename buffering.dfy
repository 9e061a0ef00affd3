/** The two bounded buffers between the capture loops and the encoder
    (src/core/buffering.py). Both wrap a `queue.Queue(maxsize=...)`, never block
    on `put` (a full queue drops the NEW item) and count what they accepted and
    what they dropped. */
module Buffering {
  import opened Common

  const DefaultFrameCapacity: int := 100
  const DefaultAudioCapacity: int := 200

  /** What the queue holds: a payload and its capture timestamp. */
  datatype Entry = Entry(payload: Bytes, timestamp: real)

  /** queue.Queue accepts a put without blocking when it is not full; a
      maxsize of zero or less makes it unbounded. */
  predicate HasRoom(occupancy: nat, maxSize: int)
  {
    maxSize <= 0 || occupancy < maxSize
  }

  /** The abstract state of either buffer: queue contents, capacity, and the
      accepted / dropped counters. */
  datatype BufferState = BufferState(items: seq<Entry>, maxSize: int, accepted: nat, dropped: nat)

  /** Occupancy never exceeds a positive capacity. */
  predicate Bounded(s: BufferState)
  {
    s.maxSize > 0 ==> |s.items| <= s.maxSize
  }

  /** put(item, timestamp): append when there is room, otherwise drop it. */
  function Offer(s: BufferState, e: Entry): BufferState
  {
    if HasRoom(|s.items|, s.maxSize) then s.(items := s.items + [e], accepted := s.accepted + 1)
    else s.(dropped := s.dropped + 1)
  }

  /** A sequence of puts, oldest first. */
  function OfferAll(s: BufferState, es: seq<Entry>): BufferState
  {
    if es == [] then s else Offer(OfferAll(s, es[..|es| - 1]), es[|es| - 1])
  }

  lemma OfferAllSnoc(s: BufferState, es: seq<Entry>, e: Entry)
    ensures OfferAll(s, es + [e]) == Offer(OfferAll(s, es), e)
  {
    assert (es + [e])[..|es|] == es;
  }

  /** get(): the oldest entry leaves the queue; an empty queue yields None. */
  function Take(s: BufferState): (Option<Entry>, BufferState)
  {
    if s.items == [] then (None, s) else (Some(s.items[0]), s.(items := s.items[1..]))
  }

  /** How many of n consecutive puts a buffer in state s accepts. */
  function Admitted(s: BufferState, n: nat): nat
  {
    if s.maxSize <= 0 then n
    else if s.maxSize <= |s.items| then 0
    else if n <= s.maxSize - |s.items| then n
    else s.maxSize - |s.items|
  }

  /** Consecutive puts: the accepted entries are exactly the first
      Admitted(s, |es|) of them (drop-newest keeps the oldest), appended in
      order; every other put is counted as dropped. */
  lemma {:induction false} OfferAllPrefix(s: BufferState, es: seq<Entry>)
    ensures OfferAll(s, es).maxSize == s.maxSize
    ensures OfferAll(s, es).items == s.items + es[..Admitted(s, |es|)]
    ensures OfferAll(s, es).accepted == s.accepted + Admitted(s, |es|)
    ensures OfferAll(s, es).dropped == s.dropped + |es| - Admitted(s, |es|)
  {
    if es != [] {
      var init := es[..|es| - 1];
      OfferAllPrefix(s, init);
      assert init[..Admitted(s, |init|)] == es[..Admitted(s, |init|)];
      if Admitted(s, |es|) > Admitted(s, |init|) {
        assert es[..Admitted(s, |es|)] == es[..Admitted(s, |init|)] + [es[|es| - 1]];
      }
    }
  }

  /** Every put is either accepted or dropped, and neither counter decreases. */
  lemma OfferAllConserves(s: BufferState, es: seq<Entry>)
    ensures OfferAll(s, es).accepted + OfferAll(s, es).dropped == s.accepted + s.dropped + |es|
    ensures OfferAll(s, es).accepted >= s.accepted && OfferAll(s, es).dropped >= s.dropped
  {
    OfferAllPrefix(s, es);
  }

  /** Any number of puts keeps occupancy within the capacity. */
  lemma OfferAllBounded(s: BufferState, es: seq<Entry>)
    requires Bounded(s)
    ensures Bounded(OfferAll(s, es))
  {
    OfferAllPrefix(s, es);
  }

  /** Pushing more items than the capacity into an empty buffer fills it and
      drops exactly the overflow. */
  lemma OverflowFromEmpty(capacity: nat, es: seq<Entry>)
    requires 0 < capacity <= |es|
    ensures |OfferAll(BufferState([], capacity, 0, 0), es).items| == capacity
    ensures OfferAll(BufferState([], capacity, 0, 0), es).items == es[..capacity]
    ensures OfferAll(BufferState([], capacity, 0, 0), es).accepted == capacity
    ensures OfferAll(BufferState([], capacity, 0, 0), es).dropped == |es| - capacity
  {
    OfferAllPrefix(BufferState([], capacity, 0, 0), es);
  }

  /** A call on the buffer: put of an entry, or get. */
  datatype Call = PutCall(entry: Entry) | GetCall

  /** Outcome of a sequence of calls: the final state, the entries the gets
      returned, and the entries the puts accepted, each in call order. */
  datatype Trace = Trace(state: BufferState, got: seq<Entry>, admitted: seq<Entry>)

  function Run(s: BufferState, calls: seq<Call>): Trace
  {
    if calls == [] then Trace(s, [], [])
    else
      var t := Run(s, calls[..|calls| - 1]);
      match calls[|calls| - 1]
      case PutCall(e) =>
        var s' := Offer(t.state, e);
        Trace(s', t.got, if s'.accepted > t.state.accepted then t.admitted + [e] else t.admitted)
      case GetCall() =>
        var (r, s') := Take(t.state);
        Trace(s', if r.Some? then t.got + [r.value] else t.got, t.admitted)
  }

  /** Number of puts among the calls. */
  function PutCount(calls: seq<Call>): nat
  {
    if calls == [] then 0
    else PutCount(calls[..|calls| - 1]) + (if calls[|calls| - 1].PutCall? then 1 else 0)
  }

  /** FIFO over any interleaving of puts and gets: what the gets returned,
      followed by what is still queued, is what was queued at the start
      followed by every accepted put, in order; the bound is kept and every
      put is counted once, as accepted or as dropped. */
  lemma {:induction false} RunIsFifo(s: BufferState, calls: seq<Call>)
    requires Bounded(s)
    ensures Run(s, calls).got + Run(s, calls).state.items == s.items + Run(s, calls).admitted
    ensures Bounded(Run(s, calls).state)
    ensures Run(s, calls).state.accepted == s.accepted + |Run(s, calls).admitted|
    ensures Run(s, calls).state.accepted + Run(s, calls).state.dropped
         == s.accepted + s.dropped + PutCount(calls)
  {
    if calls != [] {
      var init := calls[..|calls| - 1];
      var t := Run(s, init);
      RunIsFifo(s, init);
      match calls[|calls| - 1]
      case PutCall(e) =>
        if HasRoom(|t.state.items|, t.state.maxSize) {
          assert t.got + (t.state.items + [e]) == (t.got + t.state.items) + [e];
        }
      case GetCall() =>
        if t.state.items != [] {
          assert [t.state.items[0]] + t.state.items[1..] == t.state.items;
          assert (t.got + [t.state.items[0]]) + t.state.items[1..] == t.got + t.state.items;
        }
    }
  }

  /** The video FrameBuffer. */
  class FrameBuffer {
    var buffer: seq<Entry>
    const maxSize: int
    var totalFrames: nat
    var droppedFrames: nat

    function State(): BufferState
      reads this
    {
      BufferState(buffer, maxSize, totalFrames, droppedFrames)
    }

    ghost predicate Valid()
      reads this
    {
      Bounded(State())
    }

    constructor (maxSize: int := DefaultFrameCapacity)
      ensures Valid()
      ensures State() == BufferState([], maxSize, 0, 0)
    {
      this.buffer := [];
      this.maxSize := maxSize;
      this.totalFrames := 0;
      this.droppedFrames := 0;
    }

    method Put(frame: Bytes, timestamp: real)
      requires Valid()
      modifies this
      ensures Valid()
      ensures State() == Offer(old(State()), Entry(frame, timestamp))
    {
      if HasRoom(|buffer|, maxSize) {
        buffer := buffer + [Entry(frame, timestamp)];
        totalFrames := totalFrames + 1;
      } else {
        droppedFrames := droppedFrames + 1;
      }
    }

    /** The timeout only bounds how long a concurrent producer is waited for;
        in this sequential model an empty buffer answers None at once. */
    method Get(timeout: real := 0.1) returns (r: Option<Entry>)
      requires Valid()
      modifies this
      ensures Valid()
      ensures (r, State()) == Take(old(State()))
    {
      if buffer == [] {
        r := None;
      } else {
        r := Some(buffer[0]);
        buffer := buffer[1..];
      }
    }

    method Size() returns (n: nat)
      ensures n == |buffer|
    {
      n := |buffer|;
    }

    method Clear()
      requires Valid()
      modifies this
      ensures Valid()
      ensures State() == old(State()).(items := [])
    {
      while buffer != []
        invariant Valid()
        invariant totalFrames == old(totalFrames) && droppedFrames == old(droppedFrames)
        decreases |buffer|
      {
        var _ := Get();
      }
    }
  }

  /** The AudioBuffer: the same policy, with its own counter names and a
      larger default capacity. */
  class AudioBuffer {
    var buffer: seq<Entry>
    const maxSize: int
    var totalChunks: nat
    var droppedChunks: nat

    function State(): BufferState
      reads this
    {
      BufferState(buffer, maxSize, totalChunks, droppedChunks)
    }

    ghost predicate Valid()
      reads this
    {
      Bounded(State())
    }

    constructor (maxSize: int := DefaultAudioCapacity)
      ensures Valid()
      ensures State() == BufferState([], maxSize, 0, 0)
    {
      this.buffer := [];
      this.maxSize := maxSize;
      this.totalChunks := 0;
      this.droppedChunks := 0;
    }

    method Put(audioData: Bytes, timestamp: real)
      requires Valid()
      modifies this
      ensures Valid()
      ensures State() == Offer(old(State()), Entry(audioData, timestamp))
    {
      if HasRoom(|buffer|, maxSize) {
        buffer := buffer + [Entry(audioData, timestamp)];
        totalChunks := totalChunks + 1;
      } else {
        droppedChunks := droppedChunks + 1;
      }
    }

    method Get(timeout: real := 0.1) returns (r: Option<Entry>)
      requires Valid()
      modifies this
      ensures Valid()
      ensures (r, State()) == Take(old(State()))
    {
      if buffer == [] {
        r := None;
      } else {
        r := Some(buffer[0]);
        buffer := buffer[1..];
      }
    }

    method Size() returns (n: nat)
      ensures n == |buffer|
    {
      n := |buffer|;
    }

    method Clear()
      requires Valid()
      modifies this
      ensures Valid()
      ensures State() == old(State()).(items := [])
    {
      while buffer != []
        invariant Valid()
        invariant totalChunks == old(totalChunks) && droppedChunks == old(droppedChunks)
        decreases |buffer|
      {
        var _ := Get();
      }
    }
  }
}
