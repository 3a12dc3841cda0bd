/**
 Frames: a 45-byte header with two checksums, then the payload.
 */
module Frames {
  import opened Basics
  import opened Wire
  import opened Crc

  const FRAME_MAGIC: U32 := 0x434F_4D50
  const PROTOCOL_VERSION: U16 := 1
  const MAX_FRAME_PAYLOAD := 0x80_0000
  const HEADER_SIZE := 45

  datatype Header = Header(
    magic: U32,
    version: U16,
    messageType: U16,
    requestId: U64,
    senderKind: Byte,
    senderId: Id,
    payloadLength: U32,
    payloadChecksum: U32,
    headerChecksum: U32)

  datatype Frame = Frame(header: Header, payload: Bytes)

  // ----- the header -----

  /** Everything before the header's own checksum. */
  function Unchecked(h: Header): (s: Bytes)
    ensures |s| == 41
  {
    Opening(h) + Closing(h)
  }

  function Opening(h: Header): (s: Bytes)
    ensures |s| == 17
  {
    BigEndian(h.magic, 4) + BigEndian(h.version, 2) + BigEndian(h.messageType, 2) + BigEndian(h.requestId, 8)
    + [h.senderKind]
  }

  function Closing(h: Header): (s: Bytes)
    ensures |s| == 24
  {
    BigEndian(h.senderId, 16) + BigEndian(h.payloadLength, 4) + BigEndian(h.payloadChecksum, 4)
  }

  function EncodeHeader(h: Header): (s: Bytes)
    ensures |s| == HEADER_SIZE
  {
    Unchecked(h) + BigEndian(h.headerChecksum, 4)
  }

  function FieldAt(s: Bytes, i: nat, w: nat): nat
    requires i + w <= |s|
  {
    FromBigEndian(s[i..i + w])
  }

  function Fields(s: Bytes): Header
    requires |s| == HEADER_SIZE
  {
    FieldBounds(s);
    Header(FieldAt(s, 0, 4), FieldAt(s, 4, 2), FieldAt(s, 6, 2), FieldAt(s, 8, 8), s[16], FieldAt(s, 17, 16),
           FieldAt(s, 33, 4), FieldAt(s, 37, 4), FieldAt(s, 41, 4))
  }

  lemma FieldBound(s: Bytes, i: nat, w: nat)
    requires i + w <= |s|
    ensures FieldAt(s, i, w) < Pow256(w)
  {
    assert |s[i..i + w]| == w;
  }

  lemma FieldBounds(s: Bytes)
    requires |s| == HEADER_SIZE
    ensures FieldAt(s, 0, 4) < TWO_32 && FieldAt(s, 4, 2) < 0x1_0000 && FieldAt(s, 6, 2) < 0x1_0000
    ensures FieldAt(s, 8, 8) < TWO_64 && FieldAt(s, 17, 16) < TWO_128
    ensures FieldAt(s, 33, 4) < TWO_32 && FieldAt(s, 37, 4) < TWO_32 && FieldAt(s, 41, 4) < TWO_32
  {
    Widths();
    assert Pow256(2) == 0x1_0000;
    hide Pow256, FieldAt;
    FieldBound(s, 0, 4);
    FieldBound(s, 4, 2);
    FieldBound(s, 6, 2);
    FieldBound(s, 8, 8);
    FieldBound(s, 17, 16);
    FieldBound(s, 33, 4);
    FieldBound(s, 37, 4);
    FieldBound(s, 41, 4);
  }

  /** The header with its checksum field cleared, which is what the checksum covers. */
  function Cleared(s: Bytes): Bytes
    requires |s| == HEADER_SIZE
  {
    s[..41] + [0, 0, 0, 0]
  }

  function DecodeHeader(s: Bytes): Result<Header> {
    if |s| != HEADER_SIZE then Err(MalformedFrame) else
    var h := Fields(s);
    if h.magic != FRAME_MAGIC then Err(MalformedFrame)
    else if h.payloadLength > MAX_FRAME_PAYLOAD then Err(MalformedFrame)
    else if Crc32(Cleared(s)) != h.headerChecksum then Err(MalformedFrame)
    else Ok(h)
  }

  // ----- building and checking -----

  function MakeFrame(messageType: U16, senderKind: Byte, senderId: Id, requestId: U64, payload: Bytes): Frame {
    var h := Header(FRAME_MAGIC, PROTOCOL_VERSION, messageType, requestId, senderKind, senderId,
                    |payload| % TWO_32, Crc32(payload), 0);
    Frame(h.(headerChecksum := Crc32(EncodeHeader(h))), payload)
  }

  function ValidateFrame(f: Frame): Outcome {
    if f.header.magic != FRAME_MAGIC then Failed(MalformedFrame)
    else if f.header.version != PROTOCOL_VERSION then Failed(ProtocolVersionMismatch)
    else if f.header.payloadLength != |f.payload| then Failed(MalformedFrame)
    else if f.header.payloadLength > MAX_FRAME_PAYLOAD then Failed(MalformedFrame)
    else if Crc32(f.payload) != f.header.payloadChecksum then Failed(MalformedFrame)
    else Done
  }

  /** What is put on the wire. */
  function OnWire(f: Frame): Bytes {
    EncodeHeader(f.header) + f.payload
  }

  // ----- round trip -----

  lemma FieldOf(s: Bytes, i: nat, w: nat, n: nat)
    requires i + w <= |s| && s[i..i + w] == BigEndian(n, w) && n < Pow256(w)
    ensures FieldAt(s, i, w) == n
  {
    BigEndianRoundTrip(n, w);
  }

  lemma SliceOfSlice(s: Bytes, a: nat, b: nat, i: nat, j: nat)
    requires a <= b <= |s| && i <= j <= b - a
    ensures s[a..b][i..j] == s[a + i..a + j]
  {
    forall k | 0 <= k < j - i ensures s[a..b][i..j][k] == s[a + i..a + j][k] {
    }
  }

  lemma OpeningSlices(h: Header, s: Bytes)
    requires |s| >= 17 && s[..17] == Opening(h)
    ensures s[0..4] == BigEndian(h.magic, 4) && s[4..6] == BigEndian(h.version, 2)
    ensures s[6..8] == BigEndian(h.messageType, 2) && s[8..16] == BigEndian(h.requestId, 8) && s[16] == h.senderKind
  {
    var a0, a1, a2, a3 := BigEndian(h.magic, 4), BigEndian(h.version, 2), BigEndian(h.messageType, 2), BigEndian(h.requestId, 8);
    hide BigEndian;
    assert s[..17] == a0 + a1 + a2 + a3 + [h.senderKind];
    var u := s[..17];
    assert u[0..4] == a0 && u[4..6] == a1 && u[6..8] == a2 && u[8..16] == a3;
    assert s[0..17] == u && s[16] == u[16];
    SliceOfSlice(s, 0, 17, 0, 4);
    SliceOfSlice(s, 0, 17, 4, 6);
    SliceOfSlice(s, 0, 17, 6, 8);
    SliceOfSlice(s, 0, 17, 8, 16);
  }

  lemma ClosingSlices(h: Header, s: Bytes)
    requires |s| >= 41 && s[17..41] == Closing(h)
    ensures s[17..33] == BigEndian(h.senderId, 16)
    ensures s[33..37] == BigEndian(h.payloadLength, 4) && s[37..41] == BigEndian(h.payloadChecksum, 4)
  {
    var a4, a5, a6 := BigEndian(h.senderId, 16), BigEndian(h.payloadLength, 4), BigEndian(h.payloadChecksum, 4);
    hide BigEndian;
    assert s[17..41] == a4 + a5 + a6;
    SliceOfSlice(s, 17, 41, 0, 16);
    SliceOfSlice(s, 17, 41, 16, 20);
    SliceOfSlice(s, 17, 41, 20, 24);
  }

  lemma HeaderParts(h: Header)
    ensures var s := EncodeHeader(h);
            s[..17] == Opening(h) && s[17..41] == Closing(h) && s[41..45] == BigEndian(h.headerChecksum, 4)
  {
    hide Opening, Closing, BigEndian;
  }

  lemma FieldsBack(h: Header)
    ensures Fields(EncodeHeader(h)) == h
  {
    Widths();
    assert Pow256(2) == 0x1_0000;
    var s := EncodeHeader(h);
    HeaderParts(h);
    OpeningSlices(h, s);
    ClosingSlices(h, s);
    hide BigEndian, FieldAt, Pow256, EncodeHeader, Opening, Closing;
    FieldOf(s, 0, 4, h.magic);
    FieldOf(s, 4, 2, h.version);
    FieldOf(s, 6, 2, h.messageType);
    FieldOf(s, 8, 8, h.requestId);
    FieldOf(s, 17, 16, h.senderId);
    FieldOf(s, 33, 4, h.payloadLength);
    FieldOf(s, 37, 4, h.payloadChecksum);
    FieldOf(s, 41, 4, h.headerChecksum);
  }

  lemma ClearedIs(h: Header)
    ensures Cleared(EncodeHeader(h)) == EncodeHeader(h.(headerChecksum := 0))
  {
    assert BigEndian(0, 4) == [0, 0, 0, 0];
    assert Unchecked(h.(headerChecksum := 0)) == Unchecked(h);
    hide Unchecked;
  }

  /** A frame as built is accepted by the two checks of the receiver, exactly up to the
      payload limit. */
  lemma FrameAccepted(messageType: U16, senderKind: Byte, senderId: Id, requestId: U64, payload: Bytes)
    ensures var f := MakeFrame(messageType, senderKind, senderId, requestId, payload);
            (DecodeHeader(EncodeHeader(f.header)) == Ok(f.header) && ValidateFrame(f) == Done)
            <==> |payload| <= MAX_FRAME_PAYLOAD
  {
    var f := MakeFrame(messageType, senderKind, senderId, requestId, payload);
    FieldsBack(f.header);
    ClearedIs(f.header);
    hide Fields, Cleared, EncodeHeader, Crc32;
  }

  // ----- detection -----

  /** A header changed within four consecutive bytes is rejected, unless the change
      straddles the border between the covered bytes and the checksum. */
  lemma DamagedHeaderRejected(s: Bytes, t: Bytes, i: nat)
    requires DecodeHeader(s).Ok? && DifferWithin(s, t, i)
    requires t[41..] == s[41..] || t[..41] == s[..41]
    ensures DecodeHeader(t).Err?
  {
    ChecksumField(s);
    ChecksumField(t);
    assert s == s[..41] + s[41..] && t == t[..41] + t[41..];
    hide Crc32, FromBigEndian, FieldAt;
    if t[41..] == s[41..] {
      ClearedDiffer(s, t, i);
      DifferenceDetected(Cleared(s), Cleared(t), i);
    } else if DecodeHeader(t).Ok? {
      assert Cleared(s) == Cleared(t);
      FromBigEndianInjective(s[41..], t[41..]);
    }
  }

  lemma ChecksumField(s: Bytes)
    requires |s| == HEADER_SIZE
    ensures Fields(s).headerChecksum == FromBigEndian(s[41..])
  {
    assert s[41..45] == s[41..];
    hide FromBigEndian;
  }

  lemma ClearedDiffer(s: Bytes, t: Bytes, i: nat)
    requires |s| == HEADER_SIZE && DifferWithin(s, t, i) && t[41..] == s[41..]
    ensures DifferWithin(Cleared(s), Cleared(t), i)
  {
    assert s == s[..41] + s[41..] && t == t[..41] + t[41..];
    var k :| 0 <= k < 41 && s[..41][k] != t[..41][k];
    assert Cleared(s)[k] != Cleared(t)[k];
  }

  /** A payload changed within four consecutive bytes is rejected. */
  lemma DamagedPayloadRejected(f: Frame, payload: Bytes, i: nat)
    requires ValidateFrame(f) == Done && DifferWithin(f.payload, payload, i)
    ensures ValidateFrame(f.(payload := payload)) == Failed(MalformedFrame)
  {
    DifferenceDetected(f.payload, payload, i);
    hide Crc32;
  }
}
