/**
 * The capture side of the recorder: the device stream with its tracks, the chunks the
 * recorder delivers, and the artifact (`Blob`) built from them.
 */
module Capture {
  import opened Wrappers

  newtype byte = x: int | 0 <= x < 256

  /** One `dataavailable` payload: the bytes of `e.data`. */
  type Chunk = seq<byte>

  /** A `MediaStreamTrack`'s ready state. */
  datatype Track = Live | Ended

  /** A `MediaStream` returned by `getUserMedia`: its tracks. */
  datatype Stream = Stream(tracks: seq<Track>)

  /** A `Blob`: its bytes and its type tag. */
  datatype Blob = Blob(bytes: seq<byte>, mimeType: string)

  /** The type the recorder is asked for and the artifact is tagged with. */
  const MimeType := "audio/webm"

  /** The test of the `ondataavailable` handler: `e.data` is present and not empty. */
  predicate Accepts(payload: Option<Chunk>) {
    payload.Some? && |payload.value| > 0
  }

  /** The bytes of `new Blob(chunks)`: the chunks one after another. */
  function Concat(chunks: seq<Chunk>): seq<byte>
    decreases |chunks|
  {
    if chunks == [] then [] else chunks[0] + Concat(chunks[1..])
  }

  /** The artifact the `onstop` handler builds from the buffered chunks. */
  function Artifact(chunks: seq<Chunk>): Blob {
    Blob(Concat(chunks), MimeType)
  }

  lemma {:induction false} ConcatSplit(a: seq<Chunk>, b: seq<Chunk>)
    ensures Concat(a + b) == Concat(a) + Concat(b)
    decreases |a|
  {
    if a == [] {
      assert a + b == b;
    } else {
      assert (a + b)[1..] == a[1..] + b;
      ConcatSplit(a[1..], b);
    }
  }

  /** Appending a chunk to the buffer appends its bytes to the artifact. */
  lemma ConcatAppend(chunks: seq<Chunk>, c: Chunk)
    ensures Concat(chunks + [c]) == Concat(chunks) + c
  {
    ConcatSplit(chunks, [c]);
    assert Concat([c]) == c + Concat([]);
  }

  /** Where chunk `i` starts in the artifact. */
  function Offset(chunks: seq<Chunk>, i: nat): nat
    requires i <= |chunks|
  {
    |Concat(chunks[..i])|
  }

  /**
   * No gap and no reordering: every buffered chunk is found, intact, at its own offset of the
   * artifact, the next chunk starts right where it ends, and the last one ends the artifact.
   */
  lemma ChunkAt(chunks: seq<Chunk>, i: nat)
    requires i < |chunks|
    ensures Offset(chunks, i) + |chunks[i]| <= |Concat(chunks)|
    ensures Concat(chunks)[Offset(chunks, i)..Offset(chunks, i) + |chunks[i]|] == chunks[i]
    ensures Offset(chunks, i + 1) == Offset(chunks, i) + |chunks[i]|
    ensures i == |chunks| - 1 ==> Offset(chunks, i) + |chunks[i]| == |Concat(chunks)|
  {
    assert chunks[..i + 1] == chunks[..i] + [chunks[i]];
    ConcatAppend(chunks[..i], chunks[i]);
    assert chunks[..|chunks|] == chunks;
    assert chunks == chunks[..i] + ([chunks[i]] + chunks[i + 1..]);
    ConcatSplit(chunks[..i], [chunks[i]] + chunks[i + 1..]);
    ConcatSplit([chunks[i]], chunks[i + 1..]);
    assert Concat([chunks[i]]) == chunks[i] + Concat([]);
  }

  /** A stream after `getTracks().forEach((t) => t.stop())`: every track has ended. */
  function Released(s: Stream): (r: Stream)
    ensures |r.tracks| == |s.tracks|
    ensures forall i :: 0 <= i < |r.tracks| ==> r.tracks[i] == Ended
  {
    Stream(seq(|s.tracks|, _ => Ended))
  }

  /** Stopping the tracks again changes nothing: a second release is harmless. */
  lemma ReleasedIdempotent(s: Stream)
    ensures Released(Released(s)) == Released(s)
  {
  }

  /** The `forEach` loop that stops every track of a stream, one at a time, in order. */
  method StopTracks(stream: Stream) returns (stopped: Stream)
    ensures stopped == Released(stream)
  {
    var tracks := stream.tracks;
    var i := 0;
    while i < |tracks|
      invariant 0 <= i <= |tracks| == |stream.tracks|
      invariant forall k :: 0 <= k < i ==> tracks[k] == Ended
    {
      tracks := tracks[i := Ended];
      i := i + 1;
    }
    stopped := Stream(tracks);
  }
}
