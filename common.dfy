/** Values shared by every component of the recorder: raw bytes, optional
    values, results that carry an error instead of raising, and the byte
    concatenation used for frames, audio chunks and scratch files. */
module Common {

  /** One octet of a raw frame or PCM chunk. */
  newtype byte = x: int | 0 <= x < 256

  type Bytes = seq<byte>

  datatype Option<+T> = None | Some(value: T)

  /** A call that either returns a value or raises the error it carries. */
  datatype Result<+T, +E> = Ok(value: T) | Err(error: E)

  /** Python truthiness of an optional float: None and 0.0 are false. */
  predicate Truthy(o: Option<real>)
  {
    o.Some? && o.value != 0.0
  }

  /** b''.join(chunks). */
  function Concat(chunks: seq<Bytes>): Bytes
  {
    if chunks == [] then [] else Concat(chunks[..|chunks| - 1]) + chunks[|chunks| - 1]
  }

  /** Sum of the lengths of the chunks. */
  function TotalLength(chunks: seq<Bytes>): nat
  {
    if chunks == [] then 0 else TotalLength(chunks[..|chunks| - 1]) + |chunks[|chunks| - 1]|
  }

  lemma ConcatAppend(chunks: seq<Bytes>, c: Bytes)
    ensures Concat(chunks + [c]) == Concat(chunks) + c
    ensures TotalLength(chunks + [c]) == TotalLength(chunks) + |c|
  {
    assert (chunks + [c])[..|chunks|] == chunks;
  }

  /** The joined bytes are exactly as long as all chunks together. */
  lemma {:induction false} ConcatLength(chunks: seq<Bytes>)
    ensures |Concat(chunks)| == TotalLength(chunks)
  {
    if chunks != [] {
      ConcatLength(chunks[..|chunks| - 1]);
    }
  }

  /** N chunks of L bytes each join to N * L bytes. */
  lemma {:induction false} ConcatUniformLength(chunks: seq<Bytes>, size: nat)
    requires forall i :: 0 <= i < |chunks| ==> |chunks[i]| == size
    ensures |Concat(chunks)| == |chunks| * size
  {
    if chunks != [] {
      var init := chunks[..|chunks| - 1];
      assert forall i :: 0 <= i < |init| ==> |init[i]| == size by {
        forall i | 0 <= i < |init| ensures |init[i]| == size {
          assert init[i] == chunks[i];
        }
      }
      ConcatUniformLength(init, size);
      assert |Concat(chunks)| == |init| * size + size;
    }
  }
}
