/**
 * The multipart chunk each encoded frame is sent as on the
 * `multipart/x-mixed-replace; boundary=frame` stream (app.py lines 106-109).
 */
module Framing {
  import opened Common

  predicate IsAscii(s: string)
  {
    forall i :: 0 <= i < |s| ==> s[i] as int < 128
  }

  /** The bytes of an ASCII string. */
  function Ascii(s: string): (b: seq<byte>)
    requires IsAscii(s)
    ensures |b| == |s|
    ensures forall i :: 0 <= i < |s| ==> b[i] as int == s[i] as int
  {
    if s == [] then [] else [s[0] as int as byte] + Ascii(s[1..])
  }

  /** The text around each image: boundary line, content type and blank line before it, a line end after it. */
  const Boundary: string := "--frame\r\n"
  const PartHeader: string := "Content-Type: image/jpeg\r\n\r\n"
  const PartEnd: string := "\r\n"

  /** The bytes written before the payload, spelled out. */
  const Head: seq<byte> :=
    [45, 45, 102, 114, 97, 109, 101, 13, 10]
    + [67, 111, 110, 116, 101, 110, 116, 45, 84, 121, 112, 101, 58, 32,
       105, 109, 97, 103, 101, 47, 106, 112, 101, 103, 13, 10, 13, 10]

  /** The bytes written after the payload. */
  const Tail: seq<byte> := [13, 10]

  /** `Head` and `Tail` are the ASCII encodings of the framing text. */
  lemma FramingIsAsciiText()
    ensures IsAscii(Boundary + PartHeader) && Head == Ascii(Boundary + PartHeader)
    ensures IsAscii(PartEnd) && Tail == Ascii(PartEnd)
  {
    var text := Boundary + PartHeader;
    assert IsAscii(text);
    var h := Ascii(text);
    assert |h| == |Head|;
    forall i | 0 <= i < |Head|
      ensures h[i] == Head[i]
    {
    }
  }

  /** One part of the stream, carrying one JPEG image. */
  function Chunk(payload: seq<byte>): (c: seq<byte>)
    ensures |c| == |Head| + |payload| + |Tail|
    ensures c[..|Head|] == Head && c[|c| - |Tail|..] == Tail
    ensures c[|Head|..|c| - |Tail|] == payload
  {
    Head + payload + Tail
  }

  /** What a receiver does with one part: check the framing and strip it. */
  function Unframe(c: seq<byte>): (p: Option<seq<byte>>)
  {
    if |c| >= |Head| + |Tail| && c[..|Head|] == Head && c[|c| - |Tail|..] == Tail
    then Some(c[|Head|..|c| - |Tail|])
    else None
  }

  /** Every payload is recovered from its chunk. */
  lemma UnframeChunk(payload: seq<byte>)
    ensures Unframe(Chunk(payload)) == Some(payload)
  {
  }

  /** Only chunks unframe, and each one to the payload it was built from. */
  lemma {:induction false} UnframeOnlyChunks(c: seq<byte>)
    ensures Unframe(c).Some? ==> Chunk(Unframe(c).value) == c
  {
    if Unframe(c).Some? {
      var p := Unframe(c).value;
      assert c == c[..|Head|] + p + c[|c| - |Tail|..];
    }
  }

  /** Distinct images give distinct chunks. */
  lemma ChunkInjective(p: seq<byte>, q: seq<byte>)
    ensures Chunk(p) == Chunk(q) <==> p == q
  {
    if Chunk(p) == Chunk(q) {
      UnframeChunk(p);
      UnframeChunk(q);
    }
  }
}
