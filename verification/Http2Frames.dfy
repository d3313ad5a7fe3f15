/** Frames of section 4.1 of RFC 9113 and their octets. */
module Http2Frames {
  import opened Bytes

  const DATA: byte := 0
  const HEADERS: byte := 1
  const PRIORITY: byte := 2
  const RST_STREAM: byte := 3
  const SETTINGS: byte := 4
  const PUSH_PROMISE: byte := 5
  const PING: byte := 6
  const GOAWAY: byte := 7
  const WINDOW_UPDATE: byte := 8
  const CONTINUATION: byte := 9

  const NO_ERROR: nat := 0
  const PROTOCOL_ERROR: nat := 1
  const INTERNAL_ERROR: nat := 2
  const FLOW_CONTROL_ERROR: nat := 3
  const STREAM_CLOSED: nat := 5
  const FRAME_SIZE_ERROR: nat := 6
  const REFUSED_STREAM: nat := 7
  const COMPRESSION_ERROR: nat := 9
  const ENHANCE_YOUR_CALM: nat := 11

  const HEADER_BYTES: nat := 9
  const MAX_PAYLOAD: nat := 0xFF_FFFF

  /** A frame; the 24-bit length field is the length of its payload. */
  datatype Frame = Frame(kind: byte, flags: byte, id: nat, payload: seq<byte>)

  datatype FrameHeader = FrameHeader(length: nat, kind: byte, flags: byte, id: nat)

  predicate Bit0(flags: byte) { flags % 2 == 1 }      // END_STREAM, ACK
  predicate Bit2(flags: byte) { flags / 4 % 2 == 1 }  // END_HEADERS
  predicate Bit3(flags: byte) { flags / 8 % 2 == 1 }  // PADDED
  predicate Bit5(flags: byte) { flags / 32 % 2 == 1 } // PRIORITY

  /** The reserved bit of the identifier is dropped. */
  function ParseHeader(b: seq<byte>): (h: FrameHeader)
    requires |b| == HEADER_BYTES
    ensures h.length <= MAX_PAYLOAD && h.id < TWO31
  {
    FrameHeader(GetU24(b[..3]), b[3], b[4], GetU32(b[5..9]) % TWO31)
  }

  function EncodeHeader(h: FrameHeader): (b: seq<byte>)
    ensures |b| == HEADER_BYTES
  {
    PutU24(h.length) + [h.kind, h.flags] + PutU32(h.id % TWO31)
  }

  function EncodeFrame(f: Frame): (b: seq<byte>)
    ensures |b| == HEADER_BYTES + |f.payload|
  {
    EncodeHeader(FrameHeader(|f.payload|, f.kind, f.flags, f.id)) + f.payload
  }

  lemma HeaderRoundTrip(h: FrameHeader)
    requires h.length <= MAX_PAYLOAD && h.id < TWO31
    ensures ParseHeader(EncodeHeader(h)) == h
  {
    hide PutU24, PutU32, GetU24, GetU32;
    HeaderParts(PutU24(h.length), h.kind, h.flags, PutU32(h.id % TWO31));
  }

  lemma HeaderParts(a: seq<byte>, kind: byte, flags: byte, b: seq<byte>)
    requires |a| == 3 && |b| == 4
    ensures var h := a + [kind, flags] + b; h[..3] == a && h[3] == kind && h[4] == flags && h[5..9] == b
  {
  }

  /** Re-encoding a parsed header changes at most the reserved bit. */
  lemma HeaderReencodes(b: seq<byte>)
    requires |b| == HEADER_BYTES
    ensures EncodeHeader(ParseHeader(b)) == b[5 := b[5] % 128]
  {
    hide GetU24, GetU32, PutU24, PutU32;
    U24Inverse(b[..3]);
    U31Inverse(b[5..9]);
    var d := b[5 := b[5] % 128];
    assert b[5..9][0 := b[5] % 128] == d[5..9];
    assert d == b[..3] + [b[3], b[4]] + d[5..9];
  }

  lemma U24Inverse(b: seq<byte>)
    requires |b| == 3
    ensures PutU24(GetU24(b)) == b
  {
    LastOctet(b[0] * TWO8 + b[1], b[2]);
    LastOctet(b[0], b[1]);
  }

  lemma U31Inverse(b: seq<byte>)
    requires |b| == 4
    ensures PutU32(GetU32(b) % TWO31) == b[0 := b[0] % 128]
  {
    hide PutU32;
    ReservedBit(b[0], b[1] * TWO16 + b[2] * TWO8 + b[3]);
    FourOctets(b[0] % 128, b[1], b[2], b[3]);
  }

  /** The top bit of the first octet is all that reduction modulo 2^31 takes away. */
  lemma ReservedBit(a: byte, low: nat)
    requires low < TWO24
    ensures (a * TWO24 + low) % TWO31 == (a % 128) * TWO24 + low
  {
  }

  lemma FourOctets(a: byte, b: byte, c: byte, d: byte)
    ensures PutU32(a * TWO24 + b * TWO16 + c * TWO8 + d) == [a, b, c, d]
  {
    LastOctet(a * TWO16 + b * TWO8 + c, d);
    LastOctet(a * TWO8 + b, c);
    LastOctet(a, b);
  }

  lemma LastOctet(high: nat, low: byte)
    ensures (high * TWO8 + low) / 256 == high && (high * TWO8 + low) % 256 == low
  {
  }
}
