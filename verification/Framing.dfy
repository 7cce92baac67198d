/** Length-prefixed framing of IPC messages over a byte stream: a 32-bit
    little-endian length, then that many payload bytes. The encoding of a message
    into a payload is outside the model; which payloads decode is a parameter. */
module Framing {

  newtype byte = b: int | 0 <= b < 256

  type Bytes = seq<byte>

  const MAX_MESSAGE_LEN: nat := 16 * 1024 * 1024
  const U32_LIMIT: nat := 0x1_0000_0000

  // ---- the length field ----------------------------------------------------------

  function ToLittleEndian(n: nat): (bytes: Bytes)
    requires n < U32_LIMIT
    ensures |bytes| == 4
  {
    [(n % 256) as byte, (n / 256 % 256) as byte, (n / 65536 % 256) as byte, (n / 16777216) as byte]
  }

  function FromLittleEndian(bytes: Bytes): (n: nat)
    requires |bytes| == 4
    ensures n < U32_LIMIT
  {
    bytes[0] as nat + 256 * (bytes[1] as nat) + 65536 * (bytes[2] as nat) + 16777216 * (bytes[3] as nat)
  }

  function Power256(k: nat): (p: nat)
    ensures p > 0
  {
    if k == 0 then 1 else 256 * Power256(k - 1)
  }

  /** The length goes over the wire least significant byte first. */
  lemma LeastSignificantFirst(n: nat, k: nat)
    requires n < U32_LIMIT && k < 4
    ensures ToLittleEndian(n)[k] as nat == n / Power256(k) % 256
  {
    assert Power256(1) == 256 && Power256(2) == 65536 && Power256(3) == 16777216;
  }

  lemma LengthRoundTrip(n: nat)
    requires n < U32_LIMIT
    ensures FromLittleEndian(ToLittleEndian(n)) == n
  {
    assert n / 65536 == n / 256 / 256;
    assert n / 16777216 == n / 65536 / 256;
    assert n == n % 256 + 256 * (n / 256);
    assert n / 256 == n / 256 % 256 + 256 * (n / 256 / 256);
    assert n / 65536 == n / 65536 % 256 + 256 * (n / 65536 / 256);
  }

  lemma BytesRoundTrip(bytes: Bytes)
    requires |bytes| == 4
    ensures ToLittleEndian(FromLittleEndian(bytes)) == bytes
  {
    var n := FromLittleEndian(bytes);
    var (a, b, c, d) := (bytes[0] as nat, bytes[1] as nat, bytes[2] as nat, bytes[3] as nat);
    assert n == a + 256 * (b + 256 * c + 65536 * d);
    assert n % 256 == a && n / 256 == b + 256 * (c + 256 * d);
    assert n / 256 % 256 == b && n / 65536 == c + 256 * d;
    assert n / 65536 % 256 == c && n / 16777216 == d;
    assert bytes == [bytes[0], bytes[1], bytes[2], bytes[3]];
  }

  // ---- one message -----------------------------------------------------------------

  datatype FrameError =
    | Disconnected      // the stream ended before a whole length field
    | TooLong           // the declared length is over the limit
    | UnexpectedEnd     // the stream ended inside the payload
    | Malformed         // the payload arrived whole and does not decode

  datatype ReadResult = Message(payload: Bytes, rest: Bytes) | Failed(error: FrameError)

  function Frame(payload: Bytes): Bytes
    requires |payload| < U32_LIMIT
  {
    ToLittleEndian(|payload|) + payload
  }

  function ReadFrame(stream: Bytes, decodes: Bytes -> bool): (r: ReadResult)
    ensures r.Message? ==> |r.rest| < |stream|
  {
    if |stream| < 4 then Failed(Disconnected)
    else
      var len := FromLittleEndian(stream[..4]);
      if len > MAX_MESSAGE_LEN then Failed(TooLong)
      else if |stream| < 4 + len then Failed(UnexpectedEnd)
      else if !decodes(stream[4..4 + len]) then Failed(Malformed)
      else Message(stream[4..4 + len], stream[4 + len..])
  }

  /** What one read leaves in the stream, whether it succeeds or not. */
  function Leftover(stream: Bytes): Bytes {
    if |stream| < 4 then []
    else
      var len := FromLittleEndian(stream[..4]);
      if len > MAX_MESSAGE_LEN then stream[4..]
      else if |stream| < 4 + len then []
      else stream[4 + len..]
  }

  /** A written message is read back intact exactly when it decodes and is within the
      read limit: the writer frames anything up to 4 GiB, the reader stops at 16 MiB. */
  lemma FrameRoundTrip(payload: Bytes, rest: Bytes, decodes: Bytes -> bool)
    requires |payload| < U32_LIMIT
    ensures ReadFrame(Frame(payload) + rest, decodes) == Message(payload, rest)
       <==> |payload| <= MAX_MESSAGE_LEN && decodes(payload)
    ensures |payload| > MAX_MESSAGE_LEN ==> ReadFrame(Frame(payload) + rest, decodes) == Failed(TooLong)
    ensures |payload| <= MAX_MESSAGE_LEN && !decodes(payload) ==>
            ReadFrame(Frame(payload) + rest, decodes) == Failed(Malformed)
    ensures |payload| <= MAX_MESSAGE_LEN ==> Leftover(Frame(payload) + rest) == rest
  {
    LengthRoundTrip(|payload|);
    var stream := Frame(payload) + rest;
    assert stream[..4] == ToLittleEndian(|payload|);
    if |payload| <= MAX_MESSAGE_LEN {
      assert stream[4..4 + |payload|] == payload && stream[4 + |payload|..] == rest;
    }
  }

  /** Nothing is read that was not framed: a message comes out only if the stream
      starts with exactly its frame. */
  lemma ReadIsFramed(stream: Bytes, decodes: Bytes -> bool)
    requires ReadFrame(stream, decodes).Message?
    ensures var r := ReadFrame(stream, decodes);
            && |r.payload| <= MAX_MESSAGE_LEN && decodes(r.payload)
            && stream == Frame(r.payload) + r.rest
  {
    BytesRoundTrip(stream[..4]);
    var len := FromLittleEndian(stream[..4]);
    assert stream == stream[..4] + stream[4..4 + len] + stream[4 + len..];
  }

  // ---- a whole connection ------------------------------------------------------------

  datatype Session = Session(messages: seq<Bytes>, ending: FrameError)

  /** Everything a reader gets out of a stream before it stops. */
  function ReadAll(stream: Bytes, decodes: Bytes -> bool): Session
    decreases |stream|
  {
    match ReadFrame(stream, decodes)
    case Failed(e) => Session([], e)
    case Message(payload, rest) =>
      var later := ReadAll(rest, decodes);
      Session([payload] + later.messages, later.ending)
  }

  predicate Readable(payloads: seq<Bytes>) {
    forall k :: 0 <= k < |payloads| ==> |payloads[k]| <= MAX_MESSAGE_LEN
  }

  predicate AllDecode(payloads: seq<Bytes>, decodes: Bytes -> bool) {
    forall k :: 0 <= k < |payloads| ==> decodes(payloads[k])
  }

  function Frames(payloads: seq<Bytes>): Bytes
    requires Readable(payloads)
  {
    if payloads == [] then [] else Frame(payloads[0]) + Frames(payloads[1..])
  }

  /** What a reader may make of the first `cut` bytes of these frames: the
      messages that arrived whole, in order, and whether the cut fell in a length
      field or inside a payload. */
  ghost predicate ReadUpTo(payloads: seq<Bytes>, cut: nat, got: Session)
    requires Readable(payloads)
  {
    && got.messages <= payloads
    && Readable(got.messages)
    && |Frames(got.messages)| <= cut
    && (got.messages != payloads ==> cut < |Frames(got.messages)| + 4 + |payloads[|got.messages|]|)
    && got.ending == if cut < |Frames(got.messages)| + 4 then Disconnected else UnexpectedEnd
  }

  /** Any list of messages within the limit, written one after another and then
      cut anywhere, is read as exactly the messages that arrived whole. */
  lemma {:induction false} CutStream(payloads: seq<Bytes>, cut: nat, decodes: Bytes -> bool)
    requires Readable(payloads) && AllDecode(payloads, decodes) && cut <= |Frames(payloads)|
    ensures ReadUpTo(payloads, cut, ReadAll(Frames(payloads)[..cut], decodes))
    decreases |payloads|
  {
    hide ReadFrame; hide ToLittleEndian; hide Leftover;
    if payloads == [] {
      assert Frames(payloads)[..cut] == [];
      EmptyStream(decodes);
    } else {
      var first, later := payloads[0], payloads[1..];
      var whole := Frame(first);
      if cut < |whole| {
        PartialFrame(first, cut, decodes);
        assert Frames(payloads)[..cut] == whole[..cut];
      } else {
        var tail := Frames(later)[..cut - |whole|];
        assert Frames(payloads)[..cut] == whole + tail;
        FrameRoundTrip(first, tail, decodes);
        CutStream(later, cut - |whole|, decodes);
        ReadUpToCons(payloads, cut - |whole|, ReadAll(tail, decodes));
      }
    }
  }

  lemma EmptyStream(decodes: Bytes -> bool)
    ensures ReadAll([], decodes) == Session([], Disconnected)
  {
  }

  lemma ReadUpToCons(payloads: seq<Bytes>, cut: nat, got: Session)
    requires Readable(payloads) && payloads != [] && ReadUpTo(payloads[1..], cut, got)
    ensures ReadUpTo(payloads, |Frame(payloads[0])| + cut, Session([payloads[0]] + got.messages, got.ending))
  {
    hide ToLittleEndian;
    var more := [payloads[0]] + got.messages;
    assert more[1..] == got.messages;
    assert more <= payloads by { assert payloads == [payloads[0]] + payloads[1..]; }
  }

  lemma PartialFrame(payload: Bytes, cut: nat, decodes: Bytes -> bool)
    requires |payload| <= MAX_MESSAGE_LEN && cut < |Frame(payload)|
    ensures ReadFrame(Frame(payload)[..cut], decodes) == Failed(if cut < 4 then Disconnected else UnexpectedEnd)
  {
    if cut >= 4 {
      LengthRoundTrip(|payload|);
      assert Frame(payload)[..cut][..4] == ToLittleEndian(|payload|);
    }
  }

  /** The stream round trip: uncut, the reader gets the whole list and then a
      clean disconnect. */
  lemma {:induction false} StreamRoundTrip(payloads: seq<Bytes>, decodes: Bytes -> bool)
    requires Readable(payloads) && AllDecode(payloads, decodes)
    ensures ReadAll(Frames(payloads), decodes) == Session(payloads, Disconnected)
  {
    hide ReadFrame; hide ReadAll; hide Frame;
    var stream := Frames(payloads);
    CutStream(payloads, |stream|, decodes);
    assert stream[..|stream|] == stream;
    var got := ReadAll(stream, decodes).messages;
    if got != payloads {
      assert got == payloads[..|got|];
      FramesGrow(payloads, |got|);
    }
  }

  /** The reader gives up at the first payload that does not decode, or is too long,
      whatever follows it. */
  lemma {:induction false} BadFrameEnds(payloads: seq<Bytes>, bad: Bytes, rest: Bytes, decodes: Bytes -> bool)
    requires Readable(payloads) && AllDecode(payloads, decodes)
    requires |bad| < U32_LIMIT && (|bad| > MAX_MESSAGE_LEN || !decodes(bad))
    ensures ReadAll(Frames(payloads) + (Frame(bad) + rest), decodes)
         == Session(payloads, if |bad| > MAX_MESSAGE_LEN then TooLong else Malformed)
    decreases |payloads|
  {
    hide ReadFrame; hide Frame;
    var tail := Frame(bad) + rest;
    if payloads == [] {
      assert Frames(payloads) + tail == tail;
      FrameRoundTrip(bad, rest, decodes);
    } else {
      var first, later := payloads[0], payloads[1..];
      assert Frames(payloads) + tail == Frame(first) + (Frames(later) + tail);
      FrameRoundTrip(first, Frames(later) + tail, decodes);
      BadFrameEnds(later, bad, rest, decodes);
      assert [first] + later == payloads;
    }
  }

  lemma {:induction false} FramesGrow(payloads: seq<Bytes>, n: nat)
    requires Readable(payloads) && n < |payloads|
    ensures |Frames(payloads[..n])| + 4 + |payloads[n]| <= |Frames(payloads)|
  {
    hide ToLittleEndian;
    if n > 0 {
      assert payloads[..n][1..] == payloads[1..][..n - 1];
      FramesGrow(payloads[1..], n - 1);
    }
  }

  // ---- the reader and the writer -------------------------------------------------------

  /** One direction of a socket: bytes in flight, written at the back and read at
      the front. */
  class Pipe {
    var bytes: Bytes

    constructor ()
      ensures bytes == []
    {
      bytes := [];
    }

    /** Refuses a payload whose length does not fit the length field. */
    method WriteMessage(payload: Bytes) returns (ok: bool)
      modifies this
      ensures ok <==> |payload| < U32_LIMIT
      ensures bytes == if ok then old(bytes) + Frame(payload) else old(bytes)
    {
      if |payload| >= U32_LIMIT {
        return false;
      }
      bytes := bytes + ToLittleEndian(|payload|);
      bytes := bytes + payload;
      assert bytes == old(bytes) + Frame(payload);
      return true;
    }

    method ReadMessage(decodes: Bytes -> bool) returns (r: ReadResult)
      modifies this
      ensures r == ReadFrame(old(bytes), decodes)
      ensures bytes == Leftover(old(bytes))
    {
      if |bytes| < 4 {
        bytes := [];
        return Failed(Disconnected);
      }
      var header := bytes[..4];
      bytes := bytes[4..];
      var len := FromLittleEndian(header);
      if len > MAX_MESSAGE_LEN {
        return Failed(TooLong);
      }
      if |bytes| < len {
        bytes := [];
        return Failed(UnexpectedEnd);
      }
      var payload := bytes[..len];
      assert payload == old(bytes)[4..4 + len];
      bytes := bytes[len..];
      if !decodes(payload) {
        return Failed(Malformed);
      }
      return Message(payload, bytes);
    }

    /** The reader thread's loop: forward every message until the stream fails. */
    method Drain(decodes: Bytes -> bool) returns (messages: seq<Bytes>, ending: FrameError)
      modifies this
      ensures Session(messages, ending) == ReadAll(old(bytes), decodes)
    {
      messages := [];
      while true
        invariant var later := ReadAll(bytes, decodes);
                  ReadAll(old(bytes), decodes) == Session(messages + later.messages, later.ending)
        decreases |bytes|
      {
        ghost var before := bytes;
        var r := ReadMessage(decodes);
        if r.Failed? {
          assert messages + [] == messages;
          return messages, r.error;
        }
        ghost var later := ReadAll(bytes, decodes).messages;
        assert messages + ReadAll(before, decodes).messages == (messages + [r.payload]) + later;
        messages := messages + [r.payload];
      }
      assert false;
    }
  }
}
