/** Packets, frames on the wire, and the reference decoder: a recursive
    function from a byte string to the events it denotes. */
module Wire {
  import opened MetadataCodec

  // Reserved operations (frisbee.go)
  const PING: uint16 := 0
  const PONG: uint16 := 1
  const STREAM: uint16 := 2
  const RESERVED9: uint16 := 9

  /** A packet: the metadata fields that travel, and the content buffer. The
      declared length and the content are independent until a writer checks them. */
  datatype Packet = Packet(id: uint16, operation: uint16, contentLength: uint32, content: seq<byte>)

  const PINGPacket := Packet(0, PING, 0, [])
  const PONGPacket := Packet(0, PONG, 0, [])

  /** What the two length checks at the head of both writers demand. A maximum
      of zero means unlimited. */
  predicate Sendable(p: Packet, max: uint32) {
    p.contentLength == |p.content| && (max > 0 ==> p.contentLength <= max)
  }

  /** PING and PONG carry no content: the reader does not skip a body for them. */
  predicate Bare(p: Packet) {
    p.operation == PING || p.operation == PONG ==> p.content == []
  }

  function PacketHeader(p: Packet): Header {
    Header(PACKET_MAGIC_HEADER, p.id, p.operation, p.contentLength)
  }

  /** One frame: the ten header bytes, then the content. */
  function Frame(p: Packet): (s: seq<byte>)
    ensures |s| == SIZE + |p.content|
  {
    HeaderBytes(PacketHeader(p)) + p.content
  }

  function Frames(ps: seq<Packet>): seq<byte> {
    if ps == [] then [] else Frame(ps[0]) + Frames(ps[1..])
  }

  /** What a reader makes of one frame. */
  datatype Event =
    | Data(packet: Packet)
    | StreamData(packet: Packet)
    | StreamClose(id: uint16)
    | Ping
    | Pong

  function EventOf(p: Packet): Event {
    if p.operation == PING then Ping
    else if p.operation == PONG then Pong
    else if p.operation != STREAM then Data(p)
    else if p.contentLength == 0 then StreamClose(p.id)
    else StreamData(p)
  }

  function Events(ps: seq<Packet>): (es: seq<Event>)
    ensures |es| == |ps|
    ensures forall i :: 0 <= i < |ps| ==> es[i] == EventOf(ps[i])
  {
    seq(|ps|, i requires 0 <= i < |ps| => EventOf(ps[i]))
  }

  // The reference decoder

  datatype Fault = InvalidMagicHeader | ContentLengthExceeded

  datatype Parse =
    | Complete(event: Event, size: nat)
    | Reject(fault: Fault)
    | NeedMore

  function TooLong(h: Header, max: uint32): bool {
    max > 0 && h.contentLength > max
  }

  function PacketOf(h: Header, content: seq<byte>): Packet {
    Packet(h.id, h.operation, h.contentLength, content)
  }

  /** The first frame of s. */
  function ParseFrame(s: seq<byte>, max: uint32): (r: Parse)
    ensures r.Complete? ==> SIZE <= r.size <= |s|
  {
    if |s| < SIZE then NeedMore else
    var h := ParseHeader(s);
    if h.magic != PACKET_MAGIC_HEADER then Reject(InvalidMagicHeader)
    else if TooLong(h, max) then Reject(ContentLengthExceeded)
    else if h.operation == PING then Complete(Ping, SIZE)
    else if h.operation == PONG then Complete(Pong, SIZE)
    else if |s| < SIZE + h.contentLength then NeedMore
    else Complete(EventOf(PacketOf(h, s[SIZE..SIZE + h.contentLength])), SIZE + h.contentLength)
  }

  /** Why decoding stopped: a frame no reader accepts, or bytes that are not yet
      a whole frame (possibly none). */
  datatype Stop = Rejected(fault: Fault) | Pending(rest: seq<byte>)

  datatype Decoded = Decoded(events: seq<Event>, stop: Stop)

  function Decode(s: seq<byte>, max: uint32): Decoded
    decreases |s|
  {
    match ParseFrame(s, max)
    case NeedMore => Decoded([], Pending(s))
    case Reject(f) => Decoded([], Rejected(f))
    case Complete(e, size) =>
      var d := Decode(s[size..], max);
      Decoded([e] + d.events, d.stop)
  }

  // One frame

  lemma ParseHeaderPrefix(s: seq<byte>, t: seq<byte>)
    requires SIZE <= |s|
    ensures ParseHeader(s + t) == ParseHeader(s)
  {
  }

  /** A verdict on a frame does not depend on the bytes after it. */
  lemma ParseIsLocal(s: seq<byte>, t: seq<byte>, max: uint32)
    requires !ParseFrame(s, max).NeedMore?
    ensures ParseFrame(s + t, max) == ParseFrame(s, max)
  {
    ParseHeaderPrefix(s, t);
    var h := ParseHeader(s);
    if |s| >= SIZE + h.contentLength {
      assert (s + t)[SIZE..SIZE + h.contentLength] == s[SIZE..SIZE + h.contentLength];
    }
  }

  /** A frame a writer emits is read back as its own event, whatever follows. */
  lemma FrameParses(p: Packet, rest: seq<byte>, max: uint32)
    requires Sendable(p, max) && Bare(p)
    ensures ParseFrame(Frame(p) + rest, max) == Complete(EventOf(p), |Frame(p)|)
  {
    var s := Frame(p) + rest;
    assert s == HeaderBytes(PacketHeader(p)) + (p.content + rest);
    HeaderRoundTrip(PacketHeader(p), p.content + rest);
    assert s[SIZE..SIZE + p.contentLength] == p.content;
  }

  /** Conversely, a data or stream event is only ever read from the frame of
      exactly that packet, which the length checks admit. */
  lemma ParsedIsFrame(s: seq<byte>, max: uint32)
    requires ParseFrame(s, max).Complete?
    ensures var r := ParseFrame(s, max);
      match r.event
      case Data(p) => p.operation > STREAM && Sendable(p, max) && s[..r.size] == Frame(p)
      case StreamData(p) => p.operation == STREAM && p.content != [] && Sendable(p, max) && s[..r.size] == Frame(p)
      case StreamClose(id) => s[..r.size] == Frame(Packet(id, STREAM, 0, []))
      case Ping => ParseHeader(s).operation == PING && r.size == SIZE
      case Pong => ParseHeader(s).operation == PONG && r.size == SIZE
  {
    var h := ParseHeader(s);
    BytesRoundTrip(s[..SIZE]);
    assert ParseHeader(s[..SIZE]) == h;
    if |s| >= SIZE + h.contentLength {
      assert s[..SIZE + h.contentLength] == s[..SIZE] + s[SIZE..SIZE + h.contentLength];
    }
  }

  // Whole streams

  /** Decoding is incremental: bytes that arrive later only extend what was
      decoded, and a rejection is final. */
  lemma {:induction false} DecodeAppend(s: seq<byte>, t: seq<byte>, max: uint32)
    ensures var d := Decode(s, max);
      Decode(s + t, max) ==
        if d.stop.Rejected? then d
        else var e := Decode(d.stop.rest + t, max); Decoded(d.events + e.events, e.stop)
    decreases |s|
  {
    hide ParseFrame;
    var r := ParseFrame(s, max);
    if !r.NeedMore? {
      ParseIsLocal(s, t, max);
    }
    if r.Complete? {
      assert (s + t)[r.size..] == s[r.size..] + t;
      DecodeAppend(s[r.size..], t, max);
    }
  }

  lemma {:induction false} FramesAppend(ps: seq<Packet>, qs: seq<Packet>)
    ensures Frames(ps + qs) == Frames(ps) + Frames(qs)
  {
    if ps == [] {
      assert ps + qs == qs;
    } else {
      assert (ps + qs)[1..] == ps[1..] + qs;
      FramesAppend(ps[1..], qs);
    }
  }

  lemma FramesSnoc(ps: seq<Packet>, p: Packet)
    ensures Frames(ps + [p]) == Frames(ps) + Frame(p)
  {
    FramesAppend(ps, [p]);
    assert Frames([p]) == Frame(p) + Frames([p][1..]);
  }

  predicate AllSent(ps: seq<Packet>, max: uint32) {
    forall p :: p in ps ==> Sendable(p, max) && Bare(p)
  }

  lemma DecodeFrame(p: Packet, rest: seq<byte>, max: uint32)
    requires Sendable(p, max) && Bare(p)
    ensures Decode(Frame(p) + rest, max) ==
      Decoded([EventOf(p)] + Decode(rest, max).events, Decode(rest, max).stop)
  {
    hide ParseFrame, Frame;
    FrameParses(p, rest, max);
    assert (Frame(p) + rest)[|Frame(p)|..] == rest;
  }

  /** Round trip: the frames of any accepted packets, followed by anything,
      decode to those packets in order and then to whatever follows. */
  lemma {:induction false} DecodeFrames(ps: seq<Packet>, rest: seq<byte>, max: uint32)
    requires AllSent(ps, max)
    ensures Decode(Frames(ps) + rest, max) ==
      Decoded(Events(ps) + Decode(rest, max).events, Decode(rest, max).stop)
  {
    hide Decode, Frame;
    if ps == [] {
      assert Frames(ps) + rest == rest;
    } else {
      var more := Frames(ps[1..]) + rest;
      assert Frames(ps) + rest == Frame(ps[0]) + more;
      DecodeFrame(ps[0], more, max);
      DecodeFrames(ps[1..], rest, max);
      assert Events(ps) == [EventOf(ps[0])] + Events(ps[1..]);
    }
  }

  lemma DecodeAllFrames(ps: seq<Packet>, max: uint32)
    requires AllSent(ps, max)
    ensures Decode(Frames(ps), max) == Decoded(Events(ps), Pending([]))
  {
    DecodeFrames(ps, [], max);
    assert Frames(ps) + [] == Frames(ps);
    assert Events(ps) + [] == Events(ps);
  }

  /** A reader that has seen only part of a well-formed stream has decoded a
      prefix of the packets and rejected nothing. */
  lemma DecodePrefix(d: seq<byte>, ps: seq<Packet>, max: uint32)
    requires d <= Frames(ps) && AllSent(ps, max)
    ensures Decode(d, max).events <= Events(ps) && Decode(d, max).stop.Pending?
  {
    DecodeAllFrames(ps, max);
    var t := Frames(ps)[|d|..];
    assert Frames(ps) == d + t;
    DecodeAppend(d, t, max);
  }
}
