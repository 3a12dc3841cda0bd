/**
 Receiving frames from a byte stream that arrives in pieces of any size, with timeouts in
 between.
 */
module Channels {
  import opened Basics
  import opened Wire
  import opened Frames

  /** The receiving end of a connection: the bytes still to come, and how often the outside
      has let a deadline pass or broken the connection. */
  class Socket {
    var stream: Bytes
    ghost var lapses: nat
    ghost var breaks: nat

    constructor (bytes: Bytes)
      ensures stream == bytes && lapses == 0 && breaks == 0
    {
      stream, lapses, breaks := bytes, 0, 0;
    }

    /** Whether the deadline of a call has passed, as the clock has it. */
    method DeadlinePassed() returns (late: bool)
      modifies this
      ensures stream == old(stream) && breaks == old(breaks)
      ensures lapses == if late then old(lapses) + 1 else old(lapses)
    {
      late := *;
      if late {
        lapses := lapses + 1;
      }
    }

    /** Some of the next bytes, at most `n`; or nothing in time; or a broken connection. How
        many, and which, is decided outside. */
    method RecvSome(n: nat) returns (r: Result<Bytes>)
      requires n > 0
      modifies this
      ensures r.Ok? ==> 0 < |r.value| <= n && old(stream) == r.value + stream
      ensures r.Err? ==> stream == old(stream) && (r.error == Timeout || r.error == ConnectionClosed)
      ensures lapses == if r == Err(Timeout) then old(lapses) + 1 else old(lapses)
      ensures breaks == if r == Err(ConnectionClosed) then old(breaks) + 1 else old(breaks)
    {
      var k: int := *;
      var broken := *;
      if broken {
        breaks := breaks + 1;
        return Err(ConnectionClosed);
      }
      if k <= 0 || k > n || k > |stream| {
        lapses := lapses + 1;
        return Err(Timeout);
      }
      var piece := stream[..k];
      stream := stream[k..];
      return Ok(piece);
    }
  }

  // ----- what a byte string begins with -----

  /** The length of the frame a well-formed header announces. */
  function Announced(s: Bytes): (n: nat)
    requires |s| >= HEADER_SIZE && DecodeHeader(s[..HEADER_SIZE]).Ok?
    ensures n >= HEADER_SIZE
  {
    HEADER_SIZE + DecodeHeader(s[..HEADER_SIZE]).value.payloadLength
  }

  /** What may be left in the buffer between calls: less than a header, or a good header and
      less than the whole frame. */
  ghost predicate Unfinished(s: Bytes) {
    |s| >= HEADER_SIZE ==> DecodeHeader(s[..HEADER_SIZE]).Ok? && |s| < Announced(s)
  }

  /** `f` is the valid frame that `s` begins with, of a payload of at most `limit`. */
  ghost predicate BeginsWith(s: Bytes, f: Frame, limit: nat) {
    && |s| >= HEADER_SIZE && DecodeHeader(s[..HEADER_SIZE]) == Ok(f.header)
    && f.header.payloadLength <= limit
    && |s| >= Announced(s) && f.payload == s[HEADER_SIZE..Announced(s)]
    && ValidateFrame(f) == Done
  }

  /** `s` is the valid frame `f` followed by `rest`. */
  ghost predicate Splits(s: Bytes, f: Frame, rest: Bytes, limit: nat) {
    BeginsWith(s, f, limit) && rest == s[Announced(s)..]
  }

  /** `s` begins with bytes the receiver must refuse. */
  ghost predicate Refused(s: Bytes, limit: nat) {
    && |s| >= HEADER_SIZE
    && (DecodeHeader(s[..HEADER_SIZE]).Ok? ==>
          var h := DecodeHeader(s[..HEADER_SIZE]).value;
          h.payloadLength > limit
          || (|s| >= Announced(s) && ValidateFrame(Frame(h, s[HEADER_SIZE..Announced(s)])) != Done))
  }

  class Channel {
    const socket: Socket
    var recvBuffer: Bytes

    constructor (s: Socket)
      ensures socket == s && recvBuffer == []
    {
      socket, recvBuffer := s, [];
    }

    ghost predicate Valid() reads this {
      Unfinished(recvBuffer)
    }

    /** Everything not yet returned. */
    ghost function Pending(): Bytes reads this, socket {
      recvBuffer + socket.stream
    }

    /** Receive until the buffer shows a whole frame or an error, asking for no more than the
        current frame needs. Stops with `view` asking for more only when the outside let the
        deadline pass or broke the connection. */
    method Fill(limit: nat) returns (view: Progress, stopped: ErrorCode)
      requires AtMostFrame(recvBuffer)
      modifies this, socket
      ensures Pending() == old(Pending()) && Shows(recvBuffer, view, limit)
      ensures view.Need? ==> stopped == Timeout || stopped == ConnectionClosed
      ensures socket.lapses == if view.Need? && stopped == Timeout then old(socket.lapses) + 1 else old(socket.lapses)
      ensures socket.breaks
              == if view.Need? && stopped == ConnectionClosed then old(socket.breaks) + 1 else old(socket.breaks)
    {
      ghost var all := Pending();
      stopped := Timeout;
      hide AtMostFrame, Shows;
      while true
        invariant Pending() == all && AtMostFrame(recvBuffer) && stopped == Timeout
        invariant socket.lapses == old(socket.lapses) && socket.breaks == old(socket.breaks)
        decreases |socket.stream|
      {
        view := Inspect(recvBuffer, limit);
        if !view.Need? {
          return;
        }
        var late := socket.DeadlinePassed();
        if late {
          return;
        }
        MoreToCome(recvBuffer, view, limit);
        var received := socket.RecvSome(view.more);
        if received.Err? {
          stopped := received.error;
          return;
        }
        assert recvBuffer + (received.value + socket.stream) == recvBuffer + received.value + socket.stream;
        recvBuffer := recvBuffer + received.value;
      }
    }

    /** The frame the pending bytes begin with, or an error that empties the buffer, unless
        the outside let the deadline pass, which loses nothing, or broke the connection.
        Nothing beyond the frame is taken from the socket. */
    method RecvFrame(limit: nat) returns (r: Result<Frame>)
      requires Valid()
      modifies this, socket
      ensures Valid()
      ensures r.Ok? ==> Splits(old(Pending()), r.value, socket.stream, limit) && recvBuffer == []
      ensures r == Err(Timeout) ==> Pending() == old(Pending())
      ensures r.Err? && r.error != Timeout ==> recvBuffer == []
      ensures r.Err? && r.error != Timeout && r.error != ConnectionClosed ==> Refused(old(Pending()), limit)
      ensures socket.lapses == if r == Err(Timeout) then old(socket.lapses) + 1 else old(socket.lapses)
      ensures socket.breaks == if r == Err(ConnectionClosed) then old(socket.breaks) + 1 else old(socket.breaks)
    {
      hide DecodeHeader, ValidateFrame, Splits, Refused;
      var view, stopped := Fill(limit);
      InspectExtends(recvBuffer, socket.stream, view, limit);
      match view {
        case Got(frame) => r := Ok(frame);
        case Bad(error) => r := Err(error);
        case Need(_) => r := Err(stopped);
      }
      if r != Err(Timeout) {
        recvBuffer := [];
      }
    }
  }

  /** What the buffer shows: a whole frame, an error, or how many bytes to ask for. */
  datatype Progress = Need(more: nat) | Got(frame: Frame) | Bad(error: ErrorCode)

  ghost predicate AtMostFrame(s: Bytes) {
    |s| > HEADER_SIZE ==> DecodeHeader(s[..HEADER_SIZE]).Ok? && |s| <= Announced(s)
  }

  ghost predicate Shows(buffer: Bytes, view: Progress, limit: nat) {
    match view
    case Need(more) => more > 0 && Unfinished(buffer) && forall t: Bytes :: |t| <= more ==> AtMostFrame(buffer + t)
    case Got(frame) => Splits(buffer, frame, [], limit)
    case Bad(error) => Refused(buffer, limit) && error != Timeout && error != ConnectionClosed
  }

  lemma MoreToCome(buffer: Bytes, view: Progress, limit: nat)
    requires view.Need? && Shows(buffer, view, limit)
    ensures view.more > 0 && forall t: Bytes :: |t| <= view.more ==> AtMostFrame(buffer + t)
  {
  }

  method Inspect(buffer: Bytes, limit: nat) returns (view: Progress)
    requires AtMostFrame(buffer)
    ensures Shows(buffer, view, limit)
  {
    hide DecodeHeader, ValidateFrame;
    if |buffer| < HEADER_SIZE {
      return Need(HEADER_SIZE - |buffer|);
    }
    var header := DecodeHeader(buffer[..HEADER_SIZE]);
    if header.Err? {
      DecodeErrors(buffer[..HEADER_SIZE]);
      return Bad(header.error);
    }
    if header.value.payloadLength > limit {
      return Bad(MalformedFrame);
    }
    var required := HEADER_SIZE + header.value.payloadLength;
    if |buffer| == required {
      var frame := Frame(header.value, buffer[HEADER_SIZE..]);
      assert buffer[HEADER_SIZE..required] == frame.payload;
      ValidatedLength(frame);
      var validation := ValidateFrame(frame);
      return if validation == Done then Got(frame) else Bad(validation.error);
    }
    forall t: Bytes | |t| <= required - |buffer| ensures AtMostFrame(buffer + t) {
      assert (buffer + t)[..HEADER_SIZE] == buffer[..HEADER_SIZE];
    }
    return Need(required - |buffer|);
  }

  /** A verdict on the buffer is a verdict on everything pending. */
  lemma InspectExtends(buffer: Bytes, stream: Bytes, view: Progress, limit: nat)
    requires Shows(buffer, view, limit)
    ensures view.Got? ==> Splits(buffer + stream, view.frame, stream, limit)
    ensures view.Bad? ==> Refused(buffer + stream, limit)
  {
    hide DecodeHeader, ValidateFrame;
    if |buffer| >= HEADER_SIZE {
      assert (buffer + stream)[..HEADER_SIZE] == buffer[..HEADER_SIZE];
      if DecodeHeader(buffer[..HEADER_SIZE]).Ok? && Announced(buffer) <= |buffer| {
        assert (buffer + stream)[HEADER_SIZE..Announced(buffer)] == buffer[HEADER_SIZE..Announced(buffer)];
        assert Announced(buffer) == |buffer| ==> (buffer + stream)[Announced(buffer)..] == stream;
      }
    }
  }

  lemma DecodeErrors(s: Bytes)
    ensures DecodeHeader(s).Err? ==> DecodeHeader(s).error == MalformedFrame
  {
    hide Fields, Cleared;
  }

  lemma ValidatedLength(f: Frame)
    ensures ValidateFrame(f) == Done ==> |f.payload| == f.header.payloadLength
    ensures ValidateFrame(f).Failed? ==> ValidateFrame(f).error != Timeout && ValidateFrame(f).error != ConnectionClosed
  {
  }

  // ----- streams of frames -----

  function Stream(frames: seq<Frame>): Bytes {
    if frames == [] then [] else OnWire(frames[0]) + Stream(frames[1..])
  }

  /** A frame as `MakeFrame` builds it, with a payload within both limits. */
  ghost predicate Sendable(f: Frame, limit: nat) {
    && f == MakeFrame(f.header.messageType, f.header.senderKind, f.header.senderId, f.header.requestId, f.payload)
    && |f.payload| <= limit && |f.payload| <= MAX_FRAME_PAYLOAD
  }

  lemma MadeLength(t: U16, k: Byte, id: Id, req: U64, payload: Bytes)
    requires |payload| < TWO_32
    ensures var f := MakeFrame(t, k, id, req, payload); f.payload == payload && f.header.payloadLength == |payload|
  {
    hide Crc.Crc32, EncodeHeader;
  }

  lemma SendableFacts(f: Frame, limit: nat)
    requires Sendable(f, limit)
    ensures DecodeHeader(EncodeHeader(f.header)) == Ok(f.header) && ValidateFrame(f) == Done
    ensures f.header.payloadLength == |f.payload| <= limit
  {
    hide MakeFrame, EncodeHeader, DecodeHeader, ValidateFrame;
    var h := f.header;
    FrameAccepted(h.messageType, h.senderKind, h.senderId, h.requestId, f.payload);
    MadeLength(h.messageType, h.senderKind, h.senderId, h.requestId, f.payload);
  }

  /** The first frame of a stream is the only one it can be read as beginning with. */
  lemma FirstFrame(frames: seq<Frame>, limit: nat)
    requires frames != [] && Sendable(frames[0], limit)
    ensures var s := Stream(frames);
            && |s| >= HEADER_SIZE && DecodeHeader(s[..HEADER_SIZE]) == Ok(frames[0].header)
            && Announced(s) == HEADER_SIZE + |frames[0].payload| <= |s|
            && s[HEADER_SIZE..Announced(s)] == frames[0].payload
            && s[Announced(s)..] == Stream(frames[1..])
            && ValidateFrame(frames[0]) == Done && frames[0].header.payloadLength <= limit
  {
    var f := frames[0];
    SendableFacts(f, limit);
    hide Sendable, DecodeHeader, ValidateFrame, EncodeHeader;
    ThreeParts(EncodeHeader(f.header), f.payload, Stream(frames[1..]));
  }

  lemma ThreeParts(a: Bytes, b: Bytes, c: Bytes)
    ensures var s := a + b + c;
            s[..|a|] == a && s[|a|..|a| + |b|] == b && s[|a| + |b|..] == c
  {
  }

  /** Reassembly, one call: whatever pieces the bytes of `frames` arrive in, the call
      returns the first of them and leaves exactly the others, unless the outside let the
      deadline pass or broke the connection; it never reports a malformed frame. */
  method RecvNext(channel: Channel, limit: nat, ghost frames: seq<Frame>) returns (r: Result<Frame>)
    requires channel.Valid() && channel.Pending() == Stream(frames)
    requires forall f :: f in frames ==> Sendable(f, limit)
    modifies channel, channel.socket
    ensures channel.Valid()
    ensures r.Ok? ==> frames != [] && r.value == frames[0] && channel.Pending() == Stream(frames[1..])
    ensures r == Err(Timeout) ==> channel.Pending() == Stream(frames)
    ensures r.Err? ==> r.error == Timeout || r.error == ConnectionClosed
    ensures channel.socket.lapses
            == if r == Err(Timeout) then old(channel.socket.lapses) + 1 else old(channel.socket.lapses)
    ensures channel.socket.breaks
            == if r == Err(ConnectionClosed) then old(channel.socket.breaks) + 1 else old(channel.socket.breaks)
  {
    if frames != [] {
      FirstFrame(frames, limit);
    }
    hide Sendable, DecodeHeader, ValidateFrame, Stream;
    EmptyStream();
    r := channel.RecvFrame(limit);
  }

  lemma EmptyStream()
    ensures Stream([]) == []
  {
  }

  /** Reassembly: the calls on one connection return the frames in order from the first, one
      for each call in which no deadline passed, and what is pending is the rest. So once
      there have been as many calls as frames and passed deadlines together, exactly the
      frames sent have been returned, however the bytes were cut up. */
  method RecvMany(channel: Channel, limit: nat, calls: nat, ghost frames: seq<Frame>)
    returns (got: seq<Frame>, open: bool)
    requires channel.Valid() && channel.Pending() == Stream(frames)
    requires forall f :: f in frames ==> Sendable(f, limit)
    modifies channel, channel.socket
    ensures |got| <= |frames| && got == frames[..|got|]
    ensures open <==> channel.socket.breaks == old(channel.socket.breaks)
    ensures open ==> channel.Valid() && channel.Pending() == Stream(frames[|got|..])
    ensures open ==> |got| + (channel.socket.lapses - old(channel.socket.lapses)) == calls
    ensures open && calls >= |frames| + (channel.socket.lapses - old(channel.socket.lapses)) ==> got == frames
  {
    got, open := [], true;
    hide Stream, Sendable;
    assert frames[0..] == frames;
    ghost var socket := channel.socket;
    for i := 0 to calls
      invariant |got| <= |frames| && got == frames[..|got|]
      invariant open && channel.Valid() && channel.Pending() == Stream(frames[|got|..])
      invariant socket.breaks == old(socket.breaks)
      invariant |got| + (socket.lapses - old(socket.lapses)) == i
    {
      ghost var rest := frames[|got|..];
      var r := RecvNext(channel, limit, rest);
      if r == Err(ConnectionClosed) {
        return got, false;
      }
      if r.Ok? {
        assert rest[1..] == frames[|got| + 1..];
        got := got + [r.value];
      }
    }
  }
}
