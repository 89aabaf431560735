/** Length-prefixed frames over a byte stream that may arrive in any chunks. */
module Framing {
  import opened Protocol

  const MAX_FRAME_SIZE := 8 * 1024 * 1024
  const HEADER := 4

  function BigEndian(n: nat): (h: seq<Byte>)
    requires n < 0x1_0000_0000
    ensures |h| == HEADER
  {
    [n / 0x100_0000, n / 0x1_0000 % 0x100, n / 0x100 % 0x100, n % 0x100]
  }

  function Size(h: seq<Byte>): nat
    requires |h| >= HEADER
  {
    var a: nat, b: nat, c: nat, d: nat := h[0], h[1], h[2], h[3];
    a * 0x100_0000 + b * 0x1_0000 + c * 0x100 + d
  }

  lemma SizeOfHeader(n: nat, rest: seq<Byte>)
    requires n < 0x1_0000_0000
    ensures Size(BigEndian(n) + rest) == n
  {
    var a := n / 0x100;
    var b := a / 0x100;
    assert n == a * 0x100 + n % 0x100;
    assert a == b * 0x100 + a % 0x100;
    assert b == b / 0x100 * 0x100 + b % 0x100;
    assert n / 0x1_0000 == b && n / 0x100_0000 == b / 0x100;
  }

  /** A payload as it travels. */
  function EncodeFrame(payload: seq<Byte>): (frame: Result<seq<Byte>, nat>)
    ensures frame.Ok? <==> |payload| <= MAX_FRAME_SIZE
  {
    if |payload| > MAX_FRAME_SIZE then Err(|payload|) else Ok(BigEndian(|payload|) + payload)
  }

  /** What is in a buffer: a frame, the start of one, or the header of one that is too large. */
  datatype Head = Frame(payload: seq<Byte>, rest: seq<Byte>) | Partial | TooLarge(size: nat)

  function HeadOf(bytes: seq<Byte>): (head: Head)
    ensures head.Frame? ==> |bytes| == HEADER + |head.payload| + |head.rest|
  {
    if |bytes| < HEADER then Partial
    else if Size(bytes) > MAX_FRAME_SIZE then TooLarge(Size(bytes))
    else if |bytes| < HEADER + Size(bytes) then Partial
    else Frame(bytes[HEADER..HEADER + Size(bytes)], bytes[HEADER + Size(bytes)..])
  }

  /** A header that announces too much is refused as soon as it is there. */
  lemma OversizedIsRefused(n: nat, rest: seq<Byte>)
    requires MAX_FRAME_SIZE < n < 0x1_0000_0000
    ensures HeadOf(BigEndian(n) + rest) == TooLarge(n)
  {
    SizeOfHeader(n, rest);
  }

  /** All the payloads of a stream, and what is left behind the last complete frame. */
  function Payloads(bytes: seq<Byte>): seq<seq<Byte>>
    decreases |bytes|
  {
    if HeadOf(bytes).Frame? then [HeadOf(bytes).payload] + Payloads(HeadOf(bytes).rest) else []
  }

  function Leftover(bytes: seq<Byte>): seq<Byte>
    decreases |bytes|
  {
    if HeadOf(bytes).Frame? then Leftover(HeadOf(bytes).rest) else bytes
  }

  function Flatten(chunks: seq<seq<Byte>>): seq<Byte> {
    if chunks == [] then [] else chunks[0] + Flatten(chunks[1..])
  }

  function Frames(payloads: seq<seq<Byte>>): seq<Byte>
    requires forall i :: 0 <= i < |payloads| ==> |payloads[i]| <= MAX_FRAME_SIZE
  {
    if payloads == [] then [] else EncodeFrame(payloads[0]).value + Frames(payloads[1..])
  }

  class FrameDecoder {
    var bytes: seq<Byte>

    constructor ()
      ensures bytes == []
    {
      bytes := [];
    }

    method Push(chunk: seq<Byte>)
      modifies this
      ensures bytes == old(bytes) + chunk
    {
      bytes := bytes + chunk;
    }

    method NextPayload() returns (next: Result<Option<seq<Byte>>, nat>)
      modifies this
      ensures match HeadOf(old(bytes))
              case Frame(payload, rest) => next == Ok(Some(payload)) && bytes == rest
              case Partial => next == Ok(None) && bytes == old(bytes)
              case TooLarge(size) => next == Err(size) && bytes == old(bytes)
    {
      if |bytes| < HEADER {
        return Ok(None);
      }
      var size := Size(bytes);
      if size > MAX_FRAME_SIZE {
        return Err(size);
      }
      if |bytes| < HEADER + size {
        return Ok(None);
      }
      var payload := bytes[HEADER..HEADER + size];
      bytes := bytes[HEADER + size..];
      next := Ok(Some(payload));
    }
  }

  /** Reads a stream as it arrives: each chunk is pushed and every complete frame taken. The
      payloads and what stays buffered depend on the bytes alone, not on their chunks. */
  method ReadAll(chunks: seq<seq<Byte>>) returns (payloads: seq<seq<Byte>>, buffered: seq<Byte>)
    ensures payloads == Payloads(Flatten(chunks)) && buffered == Leftover(Flatten(chunks))
  {
    var decoder := new FrameDecoder();
    payloads := [];
    assert chunks[..0] == [];
    for i := 0 to |chunks|
      invariant payloads == Payloads(Flatten(chunks[..i])) && decoder.bytes == Leftover(Flatten(chunks[..i]))
    {
      FlattenSnoc(chunks[..i], chunks[i]);
      assert chunks[..i + 1] == chunks[..i] + [chunks[i]];
      MoreBytes(Flatten(chunks[..i]), chunks[i]);
      decoder.Push(chunks[i]);
      ghost var stream := decoder.bytes;
      ghost var known := payloads;
      var done := false;
      while !done
        invariant payloads + Payloads(decoder.bytes) == known + Payloads(stream)
        invariant Leftover(decoder.bytes) == Leftover(stream)
        invariant done ==> !HeadOf(decoder.bytes).Frame?
        decreases !done, |decoder.bytes|
      {
        ghost var before := decoder.bytes;
        var next := decoder.NextPayload();
        if next.Ok? && next.value.Some? {
          assert payloads + Payloads(before) == payloads + [next.value.value] + Payloads(decoder.bytes);
          payloads := payloads + [next.value.value];
        } else {
          done := true;
        }
      }
    }
    assert chunks[..|chunks|] == chunks;
    buffered := decoder.bytes;
  }

  lemma {:induction false} FlattenSnoc(chunks: seq<seq<Byte>>, chunk: seq<Byte>)
    ensures Flatten(chunks + [chunk]) == Flatten(chunks) + chunk
  {
    if chunks == [] {
      assert [chunk][1..] == [];
      assert chunks + [chunk] == [chunk];
    } else {
      assert (chunks + [chunk])[1..] == chunks[1..] + [chunk];
      FlattenSnoc(chunks[1..], chunk);
    }
  }

  /** More bytes never change the frames that are already complete. */
  lemma {:induction false} MoreBytes(bytes: seq<Byte>, more: seq<Byte>)
    ensures Payloads(bytes + more) == Payloads(bytes) + Payloads(Leftover(bytes) + more)
    ensures Leftover(bytes + more) == Leftover(Leftover(bytes) + more)
    decreases |bytes|
  {
    hide HeadOf, Size;
    var head := HeadOf(bytes);
    if head.Frame? {
      HeadGrows(bytes, more);
      MoreBytes(head.rest, more);
    }
  }

  lemma HeadGrows(bytes: seq<Byte>, more: seq<Byte>)
    requires HeadOf(bytes).Frame?
    ensures HeadOf(bytes + more) == Frame(HeadOf(bytes).payload, HeadOf(bytes).rest + more)
  {
    var size := Size(bytes);
    assert Size(bytes + more) == size;
    assert (bytes + more)[HEADER..HEADER + size] == bytes[HEADER..HEADER + size];
    assert (bytes + more)[HEADER + size..] == bytes[HEADER + size..] + more;
  }

  lemma FrameParses(payload: seq<Byte>, rest: seq<Byte>)
    requires |payload| <= MAX_FRAME_SIZE
    ensures HeadOf(EncodeFrame(payload).value + rest) == Frame(payload, rest)
  {
    var bytes := EncodeFrame(payload).value + rest;
    assert bytes == BigEndian(|payload|) + (payload + rest);
    SizeOfHeader(|payload|, payload + rest);
    assert bytes[HEADER..HEADER + |payload|] == payload;
    assert bytes[HEADER + |payload|..] == rest;
  }

  lemma PartialFrame(payload: seq<Byte>, part: seq<Byte>)
    requires |payload| <= MAX_FRAME_SIZE && part < EncodeFrame(payload).value
    ensures HeadOf(part) == Partial
  {
    var frame := EncodeFrame(payload).value;
    if |part| >= HEADER {
      SizeOfHeader(|payload|, payload);
      assert Size(part) == Size(frame);
    }
  }

  /** Any payloads within the limit, encoded and followed by part of one more frame, decode to
      exactly those payloads, in order, and leave exactly that part. */
  lemma {:induction false} FramesRoundTrip(payloads: seq<seq<Byte>>, last: seq<Byte>, part: seq<Byte>)
    requires forall i :: 0 <= i < |payloads| ==> |payloads[i]| <= MAX_FRAME_SIZE
    requires |last| <= MAX_FRAME_SIZE && part < EncodeFrame(last).value
    ensures Payloads(Frames(payloads) + part) == payloads && Leftover(Frames(payloads) + part) == part
    decreases |payloads|
  {
    if payloads == [] {
      assert Frames(payloads) + part == part;
      PartialFrame(last, part);
    } else {
      var rest := Frames(payloads[1..]) + part;
      assert Frames(payloads) + part == EncodeFrame(payloads[0]).value + rest;
      FrameParses(payloads[0], rest);
      FramesRoundTrip(payloads[1..], last, part);
    }
  }

  /** Chunks do not matter: however a sender's frames are split on the way, the reader gets
      the sender's payloads. */
  method Transport(payloads: seq<seq<Byte>>, chunks: seq<seq<Byte>>, last: seq<Byte>, ghost part: seq<Byte>)
    returns (received: seq<seq<Byte>>, buffered: seq<Byte>)
    requires forall i :: 0 <= i < |payloads| ==> |payloads[i]| <= MAX_FRAME_SIZE
    requires |last| <= MAX_FRAME_SIZE && part < EncodeFrame(last).value
    requires Flatten(chunks) == Frames(payloads) + part
    ensures received == payloads && buffered == part
  {
    FramesRoundTrip(payloads, last, part);
    received, buffered := ReadAll(chunks);
  }
}
