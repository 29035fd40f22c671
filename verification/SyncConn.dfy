/** Sync: the simple blocking connection. Its reader is the natural reference
    for the fast one. */
module SyncConn {
  import opened MetadataCodec
  import opened Wire
  import opened Options
  import ReadLoop

  datatype Error =
    | InvalidContentLength
    | LengthExceeded
    | ConnectionClosed
    | InvalidMagic
    | InputOutput

  /** What one ReadPacket makes of the bytes that are left. */
  datatype Reading =
    | Whole(packet: Packet, size: nat)
    | Broken(fault: Fault)
    | Short

  function ReadOne(s: seq<byte>, max: uint32): (r: Reading)
    ensures r.Whole? ==> SIZE <= r.size <= |s|
  {
    if |s| < SIZE then Short else
    var h := ParseHeader(s);
    if h.magic != PACKET_MAGIC_HEADER then Broken(InvalidMagicHeader)
    else if TooLong(h, max) then Broken(ContentLengthExceeded)
    else if |s| < SIZE + h.contentLength then Short
    else Whole(PacketOf(h, s[SIZE..SIZE + h.contentLength]), SIZE + h.contentLength)
  }

  datatype Readings = Readings(packets: seq<Packet>, fault: Option<Fault>)

  /** ReadPacket repeated until it fails. */
  function ReadAll(s: seq<byte>, max: uint32): Readings
    decreases |s|
  {
    match ReadOne(s, max)
    case Short => Readings([], None)
    case Broken(f) => Readings([], Some(f))
    case Whole(p, size) =>
      var r := ReadAll(s[size..], max);
      Readings([p] + r.packets, r.fault)
  }

  // The connection

  /** A net.Conn in both directions: `unread` is still to be read, `wire` has been
      written. Reads and writes may fail at any point; `failed` records that a write
      did, or that a read did before the end of the stream. */
  class Conn {
    var unread: seq<byte>
    var wire: seq<byte>
    var closed: bool
    var failed: bool

    constructor (bytes: seq<byte>)
      ensures unread == bytes && wire == [] && !closed && !failed
    {
      unread, wire, closed, failed := bytes, [], false, false;
    }

    /** Write: all of the data, or an error after some prefix of it. */
    method Write(data: seq<byte>) returns (ok: bool)
      modifies this`wire, this`failed
      ensures failed == (old(failed) || !ok)
      ensures ok ==> wire == old(wire) + data
      ensures !ok ==> old(wire) <= wire <= old(wire) + data
    {
      var k: nat :| k <= |data|;
      wire := wire + data[..k];
      ok := k == |data|;
      failed := failed || !ok;
    }

    /** io.ReadAtLeast for exactly `need` bytes, over reads of any size; it fails
        when the stream ends first, or on an error in between. */
    method ReadExactly(need: nat) returns (ok: bool, data: seq<byte>)
      modifies this`unread, this`failed
      ensures data + unread == old(unread)
      ensures ok ==> |data| == need && failed == old(failed)
      ensures !ok ==> |data| < need && (failed || unread == [])
      ensures old(failed) ==> failed
    {
      data := [];
      while |data| < need
        invariant data + unread == old(unread)
        invariant |data| <= need && failed == old(failed)
        decreases need - |data|
      {
        var nn: nat, error: bool;
        nn :| nn <= need - |data| && nn <= |unread|;
        error := *;
        assert data + unread == (data + unread[..nn]) + unread[nn..];
        data, unread := data + unread[..nn], unread[nn..];
        if (error || nn == 0) && |data| < need {
          failed := failed || unread != [];
          return false, data;
        }
      }
      ok := true;
    }
  }

  class Sync {
    const conn: Conn
    const max: uint32
    var closed: bool
    var error: Option<Error>
    var raced: bool            // another goroutine has closed the connection

    constructor (conn: Conn, max: uint32)
      ensures this.conn == conn && this.max == max && !closed && error == None && !raced
    {
      this.conn, this.max := conn, max;
      closed, error, raced := false, None, false;
    }

    /** Another goroutine may come first with Close, Raw or closeWithError. */
    method Others()
      modifies this, conn`closed
      ensures old(closed) ==> closed && raced == old(raced)
      ensures !old(closed) && closed ==> raced
      ensures closed == old(closed) ==> raced == old(raced) && error == old(error) && conn.closed == old(conn.closed)
    {
      var came: bool := *;
      if came && !closed {
        closed, raced := true, true;
        error := *;
        conn.closed := *;
      }
    }

    /** close: only the first call wins. */
    method Shut() returns (won: bool)
      modifies this`closed
      ensures closed && won == !old(closed)
    {
      won := !closed;
      closed := true;
    }

    /** closeWithError: the winner records the error and closes the connection;
        a loser changes nothing and reports the connection closed. */
    method CloseWithError(e: Error) returns (r: Error)
      modifies this, conn`closed
      ensures closed
      ensures old(closed) ==> r == ConnectionClosed && error == old(error) && conn.closed == old(conn.closed)
      ensures !old(closed) ==> r == e && error == Some(e) && conn.closed
      ensures raced == old(raced)
    {
      var won := Shut();
      if !won {
        return ConnectionClosed;
      }
      error := Some(e);
      conn.closed := true;
      r := e;
    }

    /** WritePacket: nil means that exactly the packet's frame was appended to the
        wire; a packet whose length is wrong leaves no trace, and so does any packet
        after the connection was closed. Any other failure is a failed write, which
        closes the connection, or finds that another goroutine has just done so. */
    method WritePacket(p: Packet) returns (r: Option<Error>)
      modifies this, conn`wire, conn`closed, conn`failed
      ensures conn.wire == old(conn.wire) || (Sendable(p, max) && !old(closed))
      ensures r == None ==> Sendable(p, max) && conn.wire == old(conn.wire) + Frame(p)
      ensures r == Some(InvalidContentLength) <==> p.contentLength != |p.content|
      ensures r == Some(LengthExceeded) <==> p.contentLength == |p.content| && max > 0 && p.contentLength > max
      ensures Sendable(p, max) && old(closed) ==> r == Some(ConnectionClosed)
      ensures !Sendable(p, max) || old(closed) ==> closed == old(closed) && error == old(error)
      ensures r.Some? && Sendable(p, max) && !old(closed) ==> closed && conn.wire <= old(conn.wire) + Frame(p)
      ensures r == Some(ConnectionClosed) ==> old(closed) || raced
      ensures r == Some(InputOutput) ==> conn.closed && conn.failed && error == r
      ensures old(raced) ==> raced
    {
      if p.contentLength != |p.content| {
        return Some(InvalidContentLength);
      }
      if max > 0 && p.contentLength > max {
        return Some(LengthExceeded);
      }
      var head := new byte[SIZE];
      PutUint16(head, MAGIC_OFFSET, PACKET_MAGIC_HEADER);
      PutUint16(head, ID_OFFSET, p.id);
      PutUint16(head, OPERATION_OFFSET, p.operation);
      PutUint32(head, CONTENT_LENGTH_OFFSET, p.contentLength);
      assert head[..] == HeaderBytes(PacketHeader(p));
      assert old(conn.wire) + Frame(p) == (old(conn.wire) + head[..]) + p.content;
      hide HeaderBytes, Frame;
      Others();
      if closed {
        return Some(ConnectionClosed);
      }
      var ok := conn.Write(head[..]);
      if !ok {
        var e := Fail(InputOutput);
        return Some(e);
      }
      if p.contentLength != 0 {
        ok := conn.Write(p.content);
        if !ok {
          var e := Fail(InputOutput);
          return Some(e);
        }
      }
      assert conn.wire == (old(conn.wire) + head[..]) + p.content;
      r := None;
    }

    /** After a failed read or write: ConnectionClosed if another goroutine has closed the
        connection meanwhile, otherwise closeWithError, which it may still overtake. */
    method Fail(e: Error) returns (r: Error)
      modifies this, conn`closed
      ensures closed && (r == e || r == ConnectionClosed)
      ensures r != e ==> old(closed) || raced
      ensures r == e != ConnectionClosed ==> conn.closed && error == Some(e)
      ensures old(raced) ==> raced
    {
      Others();
      if closed {
        return ConnectionClosed;
      }
      Others();
      r := CloseWithError(e);
    }

    /** ReadPacket agrees with ReadOne on the bytes it was able to read: a packet
        consumes exactly its frame, a bad frame closes the connection for that
        reason, and a short or failed read closes it with an input error; if another
        goroutine has closed it meanwhile, the error is ConnectionClosed. */
    method ReadPacket() returns (r: Option<Packet>, e: Option<Error>)
      modifies this, conn`unread, conn`closed, conn`failed
      ensures r.Some? <==> e.None?
      ensures old(closed) ==> e == Some(ConnectionClosed) && conn.unread == old(conn.unread)
      ensures r.Some? ==> closed == old(closed) && ReadsOne(r.value, old(conn.unread), conn.unread, max)
      ensures e.Some? ==> closed && e.value in {InvalidMagic, LengthExceeded, InputOutput, ConnectionClosed}
      ensures e.Some? && e != Some(ConnectionClosed) ==> conn.closed && error == e
      ensures e == Some(ConnectionClosed) ==> old(closed) || raced
      ensures old(conn.failed) ==> conn.failed
      ensures old(raced) ==> raced
      ensures e == Some(InputOutput) ==> conn.failed || ReadOne(old(conn.unread), max) == Short
      ensures e == Some(InvalidMagic) ==> ReadOne(old(conn.unread), max) == Broken(InvalidMagicHeader)
      ensures e == Some(LengthExceeded) ==> ReadOne(old(conn.unread), max) == Broken(ContentLengthExceeded)
    {
      hide ReadOne, ParseHeader;
      ghost var all := conn.unread;
      if closed {
        return None, Some(ConnectionClosed);
      }
      TooShort(all, max);
      var ok, head := conn.ReadExactly(SIZE);
      if !ok {
        var f := Fail(InputOutput);
        return None, Some(f);
      }
      var h := ParseHeader(head);
      FaultyFrame(all, head, conn.unread, max);
      if h.magic != PACKET_MAGIC_HEADER {
        Others();
        var f := CloseWithError(InvalidMagic);
        return None, Some(f);
      }
      if max > 0 && h.contentLength > max {
        Others();
        var f := CloseWithError(LengthExceeded);
        return None, Some(f);
      }
      var content := [];
      if h.contentLength > 0 {
        CutShort(all, head, conn.unread, max);
        ok, content := conn.ReadExactly(h.contentLength);
        if !ok {
          var f := Fail(InputOutput);
          return None, Some(f);
        }
      }
      WholeFrame(all, head, content, conn.unread, max);
      return Some(PacketOf(h, content)), None;
    }
  }

  // What ReadPacket has seen so far, and what ReadOne says

  lemma TooShort(all: seq<byte>, max: uint32)
    ensures |all| < SIZE ==> ReadOne(all, max) == Short
  {
  }

  lemma FaultyFrame(all: seq<byte>, head: seq<byte>, rest: seq<byte>, max: uint32)
    requires |head| == SIZE && all == head + rest
    ensures var h := ParseHeader(head);
      && (h.magic != PACKET_MAGIC_HEADER ==> ReadOne(all, max) == Broken(InvalidMagicHeader))
      && (h.magic == PACKET_MAGIC_HEADER && TooLong(h, max) ==> ReadOne(all, max) == Broken(ContentLengthExceeded))
  {
    ParseHeaderPrefix(head, rest);
  }

  lemma CutShort(all: seq<byte>, head: seq<byte>, rest: seq<byte>, max: uint32)
    requires |head| == SIZE && all == head + rest
    requires ParseHeader(head).magic == PACKET_MAGIC_HEADER && !TooLong(ParseHeader(head), max)
    ensures |rest| < ParseHeader(head).contentLength ==> ReadOne(all, max) == Short
  {
    ParseHeaderPrefix(head, rest);
  }

  lemma WholeFrame(all: seq<byte>, head: seq<byte>, content: seq<byte>, rest: seq<byte>, max: uint32)
    requires |head| == SIZE && all == head + (content + rest) && |content| == ParseHeader(head).contentLength
    requires ParseHeader(head).magic == PACKET_MAGIC_HEADER && !TooLong(ParseHeader(head), max)
    ensures ReadsOne(PacketOf(ParseHeader(head), content), all, rest, max)
  {
    ParseHeaderPrefix(head, content + rest);
    assert all[SIZE..SIZE + |content|] == content;
    assert all[SIZE + |content|..] == rest;
  }

  /** Packet p was read from before, and rest is left. */
  ghost predicate ReadsOne(p: Packet, before: seq<byte>, rest: seq<byte>, max: uint32) {
    var r := ReadOne(before, max);
    r.Whole? && r.packet == p && rest == before[r.size..]
  }

  // The fast form and the simple form

  /** The frames of s that Sync would read use neither PING, PONG nor STREAM; a
      final incomplete frame may be a STREAM, since both forms wait for its body. */
  predicate Plain(s: seq<byte>, max: uint32)
    decreases |s|
  {
    if |s| < SIZE then true else
    var h := ParseHeader(s);
    if h.magic != PACKET_MAGIC_HEADER || TooLong(h, max) then true
    else if h.operation == PING || h.operation == PONG then false
    else if |s| < SIZE + h.contentLength then true
    else h.operation != STREAM && Plain(s[SIZE + h.contentLength..], max)
  }

  function AsData(ps: seq<Packet>): (es: seq<Event>)
    ensures |es| == |ps|
    ensures forall i :: 0 <= i < |ps| ==> es[i] == Data(ps[i])
  {
    seq(|ps|, i requires 0 <= i < |ps| => Data(ps[i]))
  }

  /** The two readers give the same packets and reject the same first frame for
      the same reason. */
  ghost predicate Agree(s: seq<byte>, max: uint32) {
    var fast := Decode(s, max);
    var simple := ReadAll(s, max);
    && fast.events == AsData(simple.packets)
    && (match simple.fault
        case Some(f) => fast.stop == Rejected(f)
        case None => fast.stop.Pending?)
  }

  lemma AgreeStep(s: seq<byte>, max: uint32)
    requires ReadOne(s, max).Whole? && ParseFrame(s, max) == Complete(Data(ReadOne(s, max).packet), ReadOne(s, max).size)
    ensures Agree(s, max) <==> Agree(s[ReadOne(s, max).size..], max)
  {
    hide ParseFrame, ReadOne;
    var r := ReadOne(s, max);
    var t := s[r.size..];
    assert Decode(s, max) == Decoded([Data(r.packet)] + Decode(t, max).events, Decode(t, max).stop);
    assert AsData([r.packet] + ReadAll(t, max).packets) == [Data(r.packet)] + AsData(ReadAll(t, max).packets);
    assert Decode(s, max).events[1..] == Decode(t, max).events;
    assert AsData(ReadAll(s, max).packets)[1..] == AsData(ReadAll(t, max).packets);
  }

  lemma ReservedDisagrees(s: seq<byte>, max: uint32)
    requires ParseFrame(s, max).Complete? && !ParseFrame(s, max).event.Data?
    ensures !Agree(s, max)
  {
    hide ParseFrame, ReadAll;
    assert Decode(s, max).events[0] == ParseFrame(s, max).event;
  }

  /** Two streams on which they do not agree: a lone PING, and a lone stream close. */
  lemma PingDisagrees(max: uint32)
    ensures !Agree(Frame(PINGPacket), max)
  {
    FrameParses(PINGPacket, [], max);
    assert Frame(PINGPacket) + [] == Frame(PINGPacket);
    hide ParseFrame, Frame;
    ReservedDisagrees(Frame(PINGPacket), max);
  }

  lemma StreamDisagrees(id: uint16, max: uint32)
    ensures !Agree(Frame(Packet(id, STREAM, 0, [])), max)
  {
    var p := Packet(id, STREAM, 0, []);
    FrameParses(p, [], max);
    assert Frame(p) + [] == Frame(p);
    hide ParseFrame, Frame;
    ReservedDisagrees(Frame(p), max);
  }

  /** The fast decoder agrees with the simple reader exactly on plain streams. */
  lemma {:induction false} FastAgreesWithSimple(s: seq<byte>, max: uint32)
    ensures Agree(s, max) <==> Plain(s, max)
    decreases |s|
  {
    if |s| >= SIZE {
      var h := ParseHeader(s);
      if h.magic == PACKET_MAGIC_HEADER && !TooLong(h, max) {
        if h.operation > STREAM && |s| >= SIZE + h.contentLength {
          AgreeStep(s, max);
          FastAgreesWithSimple(s[SIZE + h.contentLength..], max);
        } else if ParseFrame(s, max).Complete? {
          ReservedDisagrees(s, max);
        }
      }
    }
  }

  // The two programs side by side

  /** ReadPacket called until it fails: the packets of ReadAll, all of them and the
      same fault unless the connection failed on the way, or another goroutine closed
      it. */
  method ReadUntilError(c: Sync) returns (packets: seq<Packet>, fault: Option<Fault>)
    requires !c.closed && !c.conn.failed && !c.raced
    modifies c, c.conn
    ensures packets <= ReadAll(old(c.conn.unread), c.max).packets
    ensures !c.conn.failed && !c.raced ==> ReadAll(old(c.conn.unread), c.max) == Readings(packets, fault)
  {
    hide ReadOne, ReadAll;
    ghost var all := ReadAll(c.conn.unread, c.max);
    packets := [];
    while true
      invariant !c.closed
      invariant all.packets == packets + ReadAll(c.conn.unread, c.max).packets
      invariant all.fault == ReadAll(c.conn.unread, c.max).fault
      decreases |c.conn.unread|
    {
      ghost var rest := c.conn.unread;
      var r, e := c.ReadPacket();
      if r.None? {
        fault := if e == Some(InvalidMagic) then Some(InvalidMagicHeader)
                 else if e == Some(LengthExceeded) then Some(ContentLengthExceeded) else None;
        NothingMore(rest, c.max);
        assert packets + [] == packets;
        return;
      }
      OneMore(rest, c.max, packets);
      packets := packets + [r.value];
    }
  }

  lemma NothingMore(s: seq<byte>, max: uint32)
    ensures ReadOne(s, max) == Short ==> ReadAll(s, max) == Readings([], None)
    ensures ReadOne(s, max).Broken? ==> ReadAll(s, max) == Readings([], Some(ReadOne(s, max).fault))
  {
  }

  lemma OneMore(s: seq<byte>, max: uint32, packets: seq<Packet>)
    ensures var r := ReadOne(s, max);
      r.Whole? ==>
        && SIZE <= r.size <= |s| && ReadAll(s, max).fault == ReadAll(s[r.size..], max).fault
        && packets + ReadAll(s, max).packets == (packets + [r.packet]) + ReadAll(s[r.size..], max).packets
  {
    hide ReadOne;
    var r := ReadOne(s, max);
    if r.Whole? {
      assert ReadAll(s, max).packets == [r.packet] + ReadAll(s[r.size..], max).packets;
    }
  }

  predicate SameFault(end: ReadLoop.End, fault: Option<Fault>) {
    match fault
    case Some(f) => end == ReadLoop.BadFrame(f)
    case None => end == ReadLoop.ReadFailed
  }

  /** readLoop and repeated Sync.ReadPacket on the same bytes, each with its own chunking
      and any buffer size: if neither was cut short by a failed read, a refused packet
      or a close, they deliver the same packets and end for the same reason exactly
      when the stream is plain. */
  method ReadBothWays(bytes: seq<byte>, size: nat, max: uint32)
    returns (clean: bool, handled: seq<Event>, end: ReadLoop.End, packets: seq<Packet>, fault: Option<Fault>)
    requires SIZE <= size
    ensures clean ==> (Plain(bytes, max) <==> handled == AsData(packets) && SameFault(end, fault))
  {
    hide Decode, ReadAll, Plain, ReadLoop.Agrees;
    var fast := new ReadLoop.Conn(bytes);
    var consumer := new ReadLoop.Consumer();
    var held;
    end, held := ReadLoop.Run(fast, consumer, size, max);
    handled := consumer.handled;
    var conn := new Conn(bytes);
    var simple := new Sync(conn, max);
    packets, fault := ReadUntilError(simple);
    clean := !fast.early && !consumer.refused && !conn.failed && !simple.raced;
    ReadLoop.WholeStream(end, fast.delivered, fast.unread, handled, max);
    FastAgreesWithSimple(bytes, max);
  }
}
