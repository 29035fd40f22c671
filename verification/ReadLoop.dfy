/** Async.readLoop: the incremental frame decoder over one reusable, growing
    buffer, proved equal to the reference decoder for every byte stream and
    every way the connection may cut it into reads. */
module ReadLoop {
  import opened MetadataCodec
  import opened Wire

  /** The reading side of a net.Conn. `unread` is what the peer has sent or will
      send; `delivered` records what Read has handed out so far, and `early` whether
      it has reported an error with bytes still to come. */
  class Conn {
    var unread: seq<byte>
    var early: bool
    ghost var delivered: seq<byte>

    constructor (bytes: seq<byte>)
      ensures unread == bytes && delivered == [] && !early
    {
      unread, delivered, early := bytes, [], false;
    }

    /** Nothing more can be expected from Read. */
    predicate Ended()
      reads this
    {
      early || unread == []
    }

    /** SetReadDeadline and Read: any number of bytes that fit, with or without an
        error (end of stream, a timeout, a closed connection); no bytes and no
        error is excluded. The slice offered to Read is never empty, and what lies behind
        the bytes read may be used as scratch space. */
    method Read(buf: array<byte>, at: nat) returns (nn: nat, failed: bool)
      requires at < buf.Length
      modifies this, buf
      ensures at + nn <= buf.Length
      ensures nn == 0 ==> failed
      ensures failed ==> Ended()
      ensures early ==> old(early) || failed
      ensures delivered == old(delivered) + buf[at..at + nn]
      ensures delivered + unread == old(delivered + unread)
      ensures buf[..at] == old(buf[..at])
    {
      nn :| 0 <= nn <= buf.Length - at && nn <= |unread|;
      failed := *;
      failed := failed || nn == 0;
      var chunk := unread[..nn];
      CopyInto(buf, at, chunk);
      Split(delivered, unread, nn);
      delivered := delivered + chunk;
      unread := unread[nn..];
      early := early || (failed && unread != []);
    }
  }

  lemma Associate(s: seq<byte>, t: seq<byte>, u: seq<byte>)
    ensures (s + t) + u == s + (t + u)
  {
  }

  lemma Split(s: seq<byte>, t: seq<byte>, n: nat)
    requires n <= |t|
    ensures (s + t[..n]) + t[n..] == s + t
  {
    assert t == t[..n] + t[n..];
  }

  /** copy(buf[at:], data). */
  method CopyInto(buf: array<byte>, at: nat, data: seq<byte>)
    requires at + |data| <= buf.Length
    modifies buf
    ensures buf[at..at + |data|] == data
    ensures forall i :: 0 <= i < buf.Length && !(at <= i < at + |data|) ==> buf[i] == old(buf[i])
  {
    forall i | at <= i < at + |data| {
      buf[i] := data[i - at];
    }
  }

  /** Whatever the decoded frames go to: the incoming queue, the PONG writer and
      the streams. Only a PONG write or a push can be refused, which is when the
      connection or the queue has been closed under the loop. */
  class Consumer {
    var handled: seq<Event>
    var refused: bool

    constructor ()
      ensures handled == [] && !refused
    {
      handled, refused := [], false;
    }

    method Take(e: Event) returns (ok: bool)
      modifies this
      ensures handled == if ok then old(handled) + [e] else old(handled)
      ensures e.Pong? || e.StreamClose? ==> ok
      ensures refused == (old(refused) || !ok)
    {
      ok := *;
      ok := ok || e.Pong? || e.StreamClose?;
      if ok {
        handled := handled + [e];
      } else {
        refused := true;
      }
    }
  }

  /** Why the loop ended. */
  datatype End =
    | BadBuffer
    | ReadFailed
    | BadFrame(fault: Fault)
    | Refused(event: Event)

  /** The refill loop: read into buf[base..] until `need` bytes have come. An
      error only matters while fewer have come. */
  method Fill(conn: Conn, buf: array<byte>, base: nat, need: nat) returns (n: nat, ok: bool)
    requires base + need <= buf.Length
    modifies conn, buf
    ensures base + n <= buf.Length
    ensures ok <==> need <= n
    ensures !ok ==> conn.Ended()
    ensures conn.delivered == old(conn.delivered) + buf[base..base + n]
    ensures conn.delivered + conn.unread == old(conn.delivered + conn.unread)
    ensures buf[..base] == old(buf[..base])
  {
    n := 0;
    ghost var got: seq<byte> := [];
    while n < need
      invariant base + n <= buf.Length && |got| == n
      invariant buf[..base + n] == old(buf[..base]) + got
      invariant conn.delivered == old(conn.delivered) + got
      invariant conn.delivered + conn.unread == old(conn.delivered + conn.unread)
      decreases need - n
    {
      var nn, failed := conn.Read(buf, base + n);
      ghost var chunk := buf[base + n..base + n + nn];
      assert buf[..base + n + nn] == buf[..base + n] + chunk;
      Associate(old(buf[..base]), got, chunk);
      Associate(old(conn.delivered), got, chunk);
      n, got := n + nn, got + chunk;
      if failed {
        assert conn.Ended();
        break;
      }
    }
    assert buf[base..base + n] == buf[..base + n][base..] == got;
    assert buf[..base] == buf[..base + n][..base];
    ok := need <= n;
  }

  /** append(buf[:cap(buf)], 0) until the capacity suffices. The language leaves
      the growth rate open, so any larger capacity is allowed. */
  method Grow(buf: array<byte>, need: nat) returns (grown: array<byte>)
    ensures need <= grown.Length && buf.Length <= grown.Length
    ensures grown == buf || fresh(grown)
    ensures grown[..buf.Length] == buf[..]
    ensures buf[..] == old(buf[..])
  {
    grown := buf;
    while grown.Length < need
      invariant buf.Length <= grown.Length
      invariant grown == buf || fresh(grown)
      invariant grown[..buf.Length] == buf[..]
      decreases need - grown.Length
    {
      var capacity: nat :| grown.Length < capacity;
      var old_ := grown;
      grown := new byte[capacity];
      forall i | 0 <= i < old_.Length {
        grown[i] := old_[i];
      }
      assert grown[..buf.Length] == old_[..buf.Length];
    }
  }

  /** The content of a frame whose header ends at `index`: taken from the buffer
      when it is all there, otherwise completed from the connection into the
      (possibly grown) buffer from its start. */
  method ReadContent(conn: Conn, buf: array<byte>, index: nat, n: nat, length: nat)
    returns (ok: bool, buf': array<byte>, index': nat, n': nat, content: seq<byte>, ghost more: seq<byte>)
    requires index <= n <= buf.Length && SIZE <= buf.Length
    modifies conn, buf
    ensures buf' == buf || fresh(buf')
    ensures SIZE <= buf'.Length && index' <= n' <= buf'.Length
    ensures ok ==> |content| == length
    ensures !ok ==> |content| < length && index' == n' && conn.Ended()
    ensures conn.delivered == old(conn.delivered) + more
    ensures old(buf[index..n]) + more == content + buf'[index'..n']
    ensures conn.delivered + conn.unread == old(conn.delivered + conn.unread)
  {
    if n - index < length {
      content := buf[index..n];
      var minSize := length - |content|;
      buf' := Grow(buf, minSize);
      var got;
      got, ok := Fill(conn, buf', 0, minSize);
      more := buf'[..got];
      if !ok {
        content := content + buf'[..got];
        index', n' := got, got;
        assert buf'[got..got] == [];
      } else {
        content := content + buf'[..minSize];
        index', n' := minSize, got;
        assert more == buf'[..minSize] + buf'[minSize..got];
      }
      assert old(buf[index..n]) + more == content + buf'[index'..n'];
    } else {
      ok, buf', index', n' := true, buf, index + length, n;
      content, more := buf[index..index + length], [];
    }
  }

  /** Between two frames: make sure a whole header is in the buffer. At the exact
      end of the buffer reading starts over; a header that straddles the end is
      first moved to the front. */
  method Refill(conn: Conn, buf: array<byte>, index: nat, n: nat) 
    returns (ok: bool, index': nat, n': nat, ghost more: seq<byte>)
    requires index <= n <= buf.Length && SIZE <= buf.Length
    modifies conn, buf
    ensures index' <= n' <= buf.Length
    ensures ok <==> index' + SIZE <= n'
    ensures !ok ==> conn.Ended()
    ensures conn.delivered == old(conn.delivered) + more
    ensures old(buf[index..n]) + more == buf[index'..n']
    ensures conn.delivered + conn.unread == old(conn.delivered + conn.unread)
  {
    if n == index {
      index' := 0;
      n', ok := Fill(conn, buf, 0, SIZE);
      more := buf[..n'];
    } else if n - index < SIZE {
      ghost var kept := buf[index..n];
      forall i | 0 <= i < n - index {
        buf[i] := buf[index + i];
      }
      var have := n - index;
      assert buf[..have] == kept;
      var got;
      got, ok := Fill(conn, buf, have, SIZE - have);
      index', n' := 0, have + got;
      assert buf[0..n'] == buf[..have] + buf[have..n'];
      more := buf[have..n'];
    } else {
      ok, index', n', more := true, index, n, [];
    }
  }

  /** binary.BigEndian reads of the four fields at `index`. */
  function HeaderAt(buf: array<byte>, index: nat): (h: Header)
    requires index + SIZE <= buf.Length
    reads buf
    ensures h == ParseHeader(buf[index..index + SIZE])
  {
    Header(Join16(buf[index], buf[index + 1]),
           Join16(buf[index + 2], buf[index + 3]),
           Join16(buf[index + 4], buf[index + 5]),
           Join32(buf[index + 6], buf[index + 7], buf[index + 8], buf[index + 9]))
  }

  /** ParseFrame by cases on the header, for a header and at most its content. */
  lemma ParseShape(head: seq<byte>, content: seq<byte>, max: uint32)
    requires |head| == SIZE && |content| <= ParseHeader(head).contentLength
    ensures var h := ParseHeader(head);
      ParseFrame(head + content, max) ==
        if h.magic != PACKET_MAGIC_HEADER then Reject(InvalidMagicHeader)
        else if TooLong(h, max) then Reject(ContentLengthExceeded)
        else if h.operation == PING then Complete(Ping, SIZE)
        else if h.operation == PONG then Complete(Pong, SIZE)
        else if |content| < h.contentLength then NeedMore
        else Complete(EventOf(PacketOf(h, content)), SIZE + |content|)
  {
    ParseHeaderPrefix(head, content);
    assert (head + content)[SIZE..SIZE + |content|] == content;
  }

  datatype Outcome = Got(event: Event) | Bad(fault: Fault) | Short

  /** One pass of the parsing loop up to the hand-over of the packet. `used` are
      the bytes of the frame, `more` what had to be read to complete it. */
  method ReadFrame(conn: Conn, buf: array<byte>, index: nat, n: nat, max: uint32)
    returns (r: Outcome, buf': array<byte>, index': nat, n': nat, ghost used: seq<byte>, ghost more: seq<byte>)
    requires index + SIZE <= n <= buf.Length
    modifies conn, buf
    ensures buf' == buf || fresh(buf')
    ensures SIZE <= buf'.Length && index' <= n' <= buf'.Length
    ensures conn.delivered == old(conn.delivered) + more
    ensures old(buf[index..n]) + more == used + buf'[index'..n']
    ensures conn.delivered + conn.unread == old(conn.delivered + conn.unread)
    ensures r.Short? ==> conn.Ended()
    ensures SIZE <= |used|
    ensures match r
      case Got(e) => ParseFrame(used, max) == Complete(e, |used|)
      case Bad(f) => ParseFrame(used, max) == Reject(f)
      case Short => ParseFrame(used + buf'[index'..n'], max) == NeedMore
  {
    hide ParseFrame, ParseHeader, Join16, Join32;
    var h := HeaderAt(buf, index);
    ghost var head := buf[index..index + SIZE];
    ghost var tail := buf[index + SIZE..n];
    assert buf[index..n] == head + tail;
    assert head + [] == head;
    ParseShape(head, [], max);
    used, more := head, [];
    buf', index', n' := buf, index + SIZE, n;
    if h.magic != PACKET_MAGIC_HEADER {
      r := Bad(InvalidMagicHeader);
    } else if TooLong(h, max) {
      r := Bad(ContentLengthExceeded);
    } else if h.operation == PING {
      r := Got(Ping);
    } else if h.operation == PONG {
      r := Got(Pong);
    } else {
      var isStream := h.operation == STREAM;
      var ok, content := true, [];
      if h.contentLength > 0 {
        ok, buf', index', n', content, more := ReadContent(conn, buf, index', n', h.contentLength);
        ParseShape(head, content, max);
        used := head + content;
        assert tail + more == content + buf'[index'..n'];
        assert (head + tail) + more == head + (tail + more);
        assert head + (content + buf'[index'..n']) == used + buf'[index'..n'];
      }
      var p := PacketOf(h, content);
      if !ok {
        r := Short;
        assert used + buf'[index'..n'] == used;
      } else if !isStream {
        r := Got(Data(p));
      } else if p.contentLength == 0 {
        r := Got(StreamClose(p.id));
      } else {
        r := Got(StreamData(p));
      }
    }
  }

  // The two facts that carry the loop

  lemma ConsumeFrame(consumed: seq<byte>, handled: seq<Event>, used: seq<byte>, e: Event, max: uint32)
    requires Decode(consumed, max) == Decoded(handled, Pending([]))
    requires ParseFrame(used, max) == Complete(e, |used|)
    ensures Decode(consumed + used, max) == Decoded(handled + [e], Pending([]))
  {
    DecodeAppend(consumed, used, max);
    assert [] + used == used && used[|used|..] == [];
  }

  lemma DecodeRest(consumed: seq<byte>, handled: seq<Event>, rest: seq<byte>, max: uint32)
    requires Decode(consumed, max) == Decoded(handled, Pending([]))
    ensures var d := Decode(rest, max);
      Decode(consumed + rest, max) == Decoded(handled + d.events, d.stop)
  {
    DecodeAppend(consumed, rest, max);
    assert [] + rest == rest;
  }

  /** The relation between what was delivered, what was handled and how the loop
      ended: it handled exactly the events the reference decoder finds, and it
      ended where and why the reference decoder does. */
  ghost predicate Agrees(end: End, delivered: seq<byte>, handled: seq<Event>, max: uint32) {
    var d := Decode(delivered, max);
    match end
    case BadBuffer => delivered == [] && handled == []
    case BadFrame(f) => d == Decoded(handled, Rejected(f))
    case ReadFailed => d.events == handled && d.stop.Pending?
    case Refused(e) => handled + [e] <= d.events
  }

  /** The loop had taken a packet from the pool when it ended, and neither handed it on nor
      put it back: at a bad frame, at a refusal, and at a read that failed within a content,
      which is when a whole header is left over; but not at a read that failed between two
      frames. */
  ghost predicate InHand(end: End, delivered: seq<byte>, max: uint32) {
    match end
    case BadBuffer => false
    case BadFrame(_) => true
    case Refused(_) => true
    case ReadFailed =>
      var stop := Decode(delivered, max).stop;
      stop.Pending? && SIZE <= |stop.rest|
  }

  lemma EndAgrees(r: Outcome, consumed: seq<byte>, handled: seq<Event>, used: seq<byte>, rest: seq<byte>, max: uint32)
    requires Decode(consumed, max) == Decoded(handled, Pending([]))
    requires match r
      case Got(e) => ParseFrame(used, max) == Complete(e, |used|)
      case Bad(f) => ParseFrame(used, max) == Reject(f)
      case Short => ParseFrame(used + rest, max) == NeedMore
    ensures match r
      case Got(e) => Agrees(Refused(e), consumed + (used + rest), handled, max)
      case Bad(f) => Agrees(BadFrame(f), consumed + (used + rest), handled, max)
      case Short => Agrees(ReadFailed, consumed + (used + rest), handled, max)
    ensures SIZE <= |used| ==> match r
      case Got(e) => InHand(Refused(e), consumed + (used + rest), max)
      case Bad(f) => InHand(BadFrame(f), consumed + (used + rest), max)
      case Short => InHand(ReadFailed, consumed + (used + rest), max)
  {
    hide ParseFrame;
    DecodeRest(consumed, handled, used + rest, max);
    if !r.Short? {
      ParseIsLocal(used, rest, max);
    }
  }

  lemma Shift(consumed: seq<byte>, window: seq<byte>, more: seq<byte>, used: seq<byte>, rest: seq<byte>)
    requires window + more == used + rest
    ensures (consumed + window) + more == consumed + (used + rest) == (consumed + used) + rest
    ensures [] + rest == rest
  {
    assert (consumed + window) + more == consumed + (window + more);
  }

  lemma NothingRead(max: uint32)
    ensures Decode([], max) == Decoded([], Pending([]))
    ensures Agrees(BadBuffer, [], [], max) && !InHand(BadBuffer, [], max)
  {
  }

  lemma HeaderMissing(ok: bool, consumed: seq<byte>, handled: seq<Event>, rest: seq<byte>, max: uint32)
    requires Decode(consumed, max) == Decoded(handled, Pending([]))
    requires ok <==> SIZE <= |rest|
    ensures !ok ==> Agrees(ReadFailed, consumed + rest, handled, max) && !InHand(ReadFailed, consumed + rest, max)
  {
    DecodeRest(consumed, handled, rest, max);
  }

  /** The whole loop, with a buffer of any initial size. Every parse starts with a
      whole header in the buffer, and each frame lowers the number of buffered and
      unread bytes by at least ten, so the loop ends on every finite input. It gives up
      on the connection only when a read failed, and otherwise only for a bad frame or
      a consumer that refused; `held` says whether it ends with a packet in hand. */
  method Run(conn: Conn, consumer: Consumer, size: nat, max: uint32) returns (end: End, held: bool)
    requires conn.delivered == [] && consumer.handled == [] && !consumer.refused
    modifies conn, consumer
    ensures end.BadBuffer? <==> size < SIZE
    ensures conn.delivered + conn.unread == old(conn.unread)
    ensures Agrees(end, conn.delivered, consumer.handled, max)
    ensures end.ReadFailed? ==> conn.Ended()
    ensures end.Refused? <==> consumer.refused
    ensures held <==> InHand(end, conn.delivered, max)
    ensures SIZE * |consumer.handled| <= |old(conn.unread)|
  {
    hide ParseFrame, Decode, Agrees, InHand;
    NothingRead(max);
    var buf := new byte[size];
    if buf.Length < SIZE {
      return BadBuffer, false;
    }
    var ok: bool, index: nat, n: nat;
    ghost var more;
    ok, index, n, more := Refill(conn, buf, 0, 0);
    ghost var consumed: seq<byte> := [];
    assert conn.delivered == consumed + buf[index..n];
    HeaderMissing(ok, consumed, consumer.handled, buf[index..n], max);
    end, held := ReadFailed, false;
    while ok
      invariant fresh(buf) && SIZE <= buf.Length && index <= n <= buf.Length
      invariant ok ==> index + SIZE <= n
      invariant !ok ==> Agrees(ReadFailed, conn.delivered, consumer.handled, max) && !InHand(ReadFailed, conn.delivered, max)
      invariant !held && SIZE * |consumer.handled| <= |consumed|
      invariant conn.delivered == consumed + buf[index..n]
      invariant Decode(consumed, max) == Decoded(consumer.handled, Pending([]))
      invariant conn.delivered + conn.unread == old(conn.unread)
      invariant end == ReadFailed && !consumer.refused && (!ok ==> conn.Ended())
      decreases |conn.unread| + n - index
    {
      var r;
      ghost var used;
      ghost var window := buf[index..n];
      held := true;                     // packet.Get
      r, buf, index, n, used, more := ReadFrame(conn, buf, index, n, max);
      Shift(consumed, window, more, used, buf[index..n]);
      EndAgrees(r, consumed, consumer.handled, used, buf[index..n], max);
      if r.Bad? {
        end := BadFrame(r.fault);
        break;
      } else if r.Short? {
        break;
      }
      ghost var handled := consumer.handled;
      var taken := consumer.Take(r.event);
      if !taken {
        end := Refused(r.event);
        break;
      }
      held := false;                    // handed on, or put back
      ConsumeFrame(consumed, handled, used, r.event, max);
      consumed := consumed + used;
      window := buf[index..n];
      ok, index, n, more := Refill(conn, buf, index, n);
      Shift(consumed, window, more, [], buf[index..n]);
      HeaderMissing(ok, consumed, consumer.handled, buf[index..n], max);
    }
  }

  /** What the loop's result says about the whole stream, read or not: the chunking
      never shows. A rejected frame is the stream's first bad frame, and a loop that
      read to the end handled every frame of the stream. */
  lemma WholeStream(end: End, delivered: seq<byte>, unread: seq<byte>, handled: seq<Event>, max: uint32)
    requires Agrees(end, delivered, handled, max) && !end.BadBuffer?
    ensures var d := Decode(delivered + unread, max);
      && handled <= d.events
      && (end.BadFrame? ==> d == Decoded(handled, Rejected(end.fault)))
      && (end.ReadFailed? && unread == [] ==> d.events == handled && d.stop.Pending?)
      && (end.Refused? ==> handled + [end.event] <= d.events)
  {
    hide ParseFrame;
    DecodeAppend(delivered, unread, max);
    if unread == [] {
      assert delivered + unread == delivered;
    }
  }
}
