/** Streams as values: a stream with its queue, and the packets that travel on it. */
module Streams {
  import opened MetadataCodec
  import opened Wire

  /** The value of a stream object, with the history of what was pushed on its queue
      and what its readers were given. */
  datatype Stream = Stream(
    id: uint16,
    closed: bool,
    queue: seq<Packet>,
    stale: seq<Packet>,
    pushed: seq<Packet>,
    delivered: seq<Packet>)

  function Fresh(id: uint16): Stream {
    Stream(id, false, [], [], [], [])
  }

  function Push(s: Stream, p: Packet): Stream {
    s.(queue := s.queue + [p], pushed := s.pushed + [p])
  }

  /** Close and drain the queue into the stale packets; only the first close counts. */
  function Shut(s: Stream): Stream {
    if s.closed then s else s.(closed := true, stale := s.queue, queue := [])
  }

  /** The packet a reader is given next, if any. */
  function Front(s: Stream): seq<Packet> {
    if s.closed then s.stale else s.queue
  }

  function Take(s: Stream): Stream
    requires Front(s) != []
  {
    if s.closed then s.(stale := s.stale[1..], delivered := s.delivered + [s.stale[0]])
    else s.(queue := s.queue[1..], delivered := s.delivered + [s.queue[0]])
  }

  /** Packets are conserved from push to delivery, and a closed stream has been drained. */
  predicate Conserved(s: Stream) {
    && s.pushed == s.delivered + Front(s)
    && (if s.closed then s.queue == [] else s.stale == [])
  }

  lemma StreamKeepsConserved(s: Stream, p: Packet)
    requires Conserved(s)
    ensures !s.closed ==> Conserved(Push(s, p))
    ensures Conserved(Shut(s)) && Front(Shut(s)) == Front(s)
    ensures Front(s) != [] ==> Conserved(Take(s)) && Take(s).delivered == s.delivered + [Front(s)[0]]
  {
    assert s.delivered + (s.queue + [p]) == (s.delivered + s.queue) + [p];
    if Front(s) != [] {
      var f := Front(s);
      assert s.delivered + f == (s.delivered + [f[0]]) + f[1..];
    }
  }

  /** The zero-length frame that closes a stream. */
  function ClosePacket(id: uint16): Packet {
    Packet(id, STREAM, 0, [])
  }

  /** What Stream.WritePacket makes of a packet: the stream's id and the STREAM operation. */
  function Stamped(p: Packet, id: uint16): Packet {
    p.(id := id, operation := STREAM)
  }

  /** A packet WritePacket accepts is read as data of its stream, and the closing frame
      as its close, whatever follows on the wire: the two are never confused. */
  lemma DataIsNeverClose(p: Packet, id: uint16, rest: seq<byte>, max: uint32)
    requires p.contentLength != 0 && Sendable(p, max)
    ensures ParseFrame(Frame(Stamped(p, id)) + rest, max) ==
      Complete(StreamData(Stamped(p, id)), SIZE + |p.content|)
    ensures ParseFrame(Frame(ClosePacket(id)) + rest, max) == Complete(StreamClose(id), SIZE)
  {
    hide ParseFrame, Frame;
    FrameParses(Stamped(p, id), rest, max);
    FrameParses(ClosePacket(id), rest, max);
  }
}
