/** From WritePacket on one side to the incoming queue on the other: the life
    cycle, the wire format and the read loop together. */
module EndToEnd {
  import opened MetadataCodec
  import opened Wire
  import opened Lifecycle
  import opened LifecycleTheorems
  import ReadLoop

  /** The packets of ps that carry user data, in order. */
  function Users(ps: seq<Packet>): seq<Packet> {
    if ps == [] then []
    else (if ps[0].operation > STREAM then [ps[0]] else []) + Users(ps[1..])
  }

  /** What readLoop pushes on the incoming queue for a sequence of events. */
  function Received(es: seq<Event>): seq<Packet> {
    if es == [] then []
    else Pushed(es[0]) + Received(es[1..])
  }

  function Pushed(e: Event): seq<Packet> {
    if e.Data? then [e.packet] else []
  }

  lemma {:induction false} ReceivedEvents(ps: seq<Packet>)
    ensures Received(Events(ps)) == Users(ps)
  {
    if ps != [] {
      assert Events(ps)[1..] == Events(ps[1..]);
      ReceivedEvents(ps[1..]);
    }
  }

  lemma {:induction false} ReceivedAppend(es: seq<Event>, fs: seq<Event>)
    ensures Received(es + fs) == Received(es) + Received(fs)
  {
    if es == [] {
      assert es + fs == fs;
    } else {
      hide Pushed;
      assert (es + fs)[1..] == es[1..] + fs;
      ReceivedAppend(es[1..], fs);
      assert Pushed(es[0]) + (Received(es[1..]) + Received(fs)) == (Pushed(es[0]) + Received(es[1..])) + Received(fs);
    }
  }

  lemma ReceivedPrefix(es: seq<Event>, fs: seq<Event>)
    requires es <= fs
    ensures Received(es) <= Received(fs)
  {
    assert fs == es + fs[|es|..];
    ReceivedAppend(es, fs[|es|..]);
  }

  /** A reader may allow longer contents than the writer. */
  predicate Accommodates(readerMax: uint32, writerMax: uint32) {
    readerMax == 0 || 0 < writerMax <= readerMax
  }

  /** At any moment of any run, with or without I/O errors, whatever part of the wire
      the peer has seen decodes to a prefix of the packets in lock order: never to a
      broken, altered or invented frame. */
  lemma PeerSeesPrefix(run: seq<State>, i: nat, seen: seq<byte>, readerMax: uint32)
    requires IsRun(run) && i < |run| && seen <= run[i].out.wire
    requires Accommodates(readerMax, run[i].max)
    ensures Decode(seen, readerMax).events <= Events(run[i].out.order)
    ensures Decode(seen, readerMax).stop.Pending?
    ensures Received(Decode(seen, readerMax).events) <= Users(run[i].out.order)
  {
    hide Decode, Frames, IsRun;
    var o := run[i].out;
    WireIsFramed(run, i);
    assert AllSent(o.order, readerMax);
    DecodePrefix(seen, o.order, readerMax);
    ReceivedPrefix(Decode(seen, readerMax).events, Events(o.order));
    ReceivedEvents(o.order);
  }

  /** After a graceful close the peer decodes exactly the accepted packets, in order. */
  lemma PeerSeesAll(run: seq<State>, i: nat, readerMax: uint32)
    requires IsRun(run) && i < |run| && run[i].win.phase == FINISHED && !run[i].out.broken
    requires Accommodates(readerMax, run[i].max)
    ensures Decode(run[i].out.wire, readerMax) == Decoded(Events(run[i].out.accepted), Pending([]))
    ensures Received(Decode(run[i].out.wire, readerMax).events) == Users(run[i].out.accepted)
  {
    hide Decode, Frames, IsRun;
    GracefulClose(run, i);
    DecodeAllFrames(run[i].out.accepted, readerMax);
    ReceivedEvents(run[i].out.accepted);
  }

  /** End-to-end round trip: one side writes packets from any number of threads among
      any PINGs and PONGs and closes gracefully; the other side runs readLoop with any
      buffer size over any chunking. What it hands on, stream data and closes included, is
      a prefix of what was accepted, and what reaches the incoming queue a prefix of the
      accepted user packets, unchanged and in order, and all of them unless a read
      failed before the end or a push was refused. No frame is ever rejected. */
  method Transfer(ghost run: seq<State>, ghost i: nat, wire: seq<byte>, size: nat, readerMax: uint32)
    returns (end: ReadLoop.End, clean: bool, handled: seq<Event>, received: seq<Packet>)
    requires IsRun(run) && i < |run| && run[i].win.phase == FINISHED && !run[i].out.broken
    requires Accommodates(readerMax, run[i].max) && wire == run[i].out.wire && SIZE <= size
    ensures !end.BadFrame? && !end.BadBuffer?
    ensures handled <= Events(run[i].out.accepted)
    ensures clean ==> handled == Events(run[i].out.accepted)
    ensures received == Received(handled) && received <= Users(run[i].out.accepted)
    ensures clean ==> received == Users(run[i].out.accepted)
  {
    hide Decode, Frames, IsRun;
    var conn := new ReadLoop.Conn(wire);
    var consumer := new ReadLoop.Consumer();
    var held;
    end, held := ReadLoop.Run(conn, consumer, size, readerMax);
    handled := consumer.handled;
    clean := !conn.early && !consumer.refused;
    received := Received(handled);
    PeerSeesAll(run, i, readerMax);
    ReadLoop.WholeStream(end, conn.delivered, conn.unread, handled, readerMax);
    ReceivedPrefix(handled, Decode(wire, readerMax).events);
  }
}
