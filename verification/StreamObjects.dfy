/** The stream objects and the connection's stream table, updated in place, and the part
    of readLoop that feeds them. Each method does to the objects what the endpoint model
    says, so what is proved of every run of two endpoints holds of the objects. */
module StreamObjects {
  import opened MetadataCodec
  import opened Wire
  import opened Streams
  import Peers

  datatype Outcome =
    | Done | Waits | StreamClosed | InvalidStreamPacket | InvalidOperation | ConnectionClosed
    | InvalidContentLength | LengthExceeded | Failed

  class Conn {
    const max: uint32
    var open: bool
    var handler: bool
    var sent: seq<Packet>
    var broken: bool                          // a write has failed
    var streams: map<uint16, StreamObject>
    ghost var objects: seq<StreamObject>      // every stream, in order of creation
    ghost var closes: seq<nat>                // closing frames each has sent
    ghost var taken: seq<Packet>              // stream data received with a handler set

    constructor (max: uint32, handler: bool)
      ensures Valid() && View() == Peers.Endpoint(max, true, handler, [], [], map[], [], [])
    {
      this.max, this.handler, open, sent, broken, streams := max, handler, true, [], false, map[];
      objects, closes, taken := [], [], [];
    }

    /** Every object knows its number, and the table names objects. */
    ghost predicate Shape()
      reads this, objects
    {
      && |closes| == |objects|
      && (forall o :: 0 <= o < |objects| ==> objects[o].number == o && objects[o].conn == this)
      && (forall id :: id in streams ==> streams[id] in objects && streams[id].id == id)
    }

    ghost function View(): Peers.Endpoint
      reads this, objects
    {
      Peers.Endpoint(max, open, handler, Views(objects), closes, Table(), sent, taken)
    }

    ghost function Table(): map<uint16, nat>
      reads this
    {
      map id | id in streams :: streams[id].number
    }

    ghost predicate Valid()
      reads this, objects
    {
      Shape() && Peers.Ok(View())
    }

    /** One object has changed, and nothing else. */
    twostate lemma Replaced(o: nat)
      requires old(Shape()) && o < |objects| && objects == old(objects)
      requires forall q :: 0 <= q < |objects| && q != o ==> unchanged(objects[q])
      ensures Views(objects) == old(Views(objects))[o := objects[o].View()]
    {
    }

    /** Which objects there are, and what the table says, stay the same. */
    twostate predicate SameTable()
      reads this
    {
      objects == old(objects) && streams == old(streams)
    }

    /** writePacket: the length checks, the closed check, and a write that may fail, which
        closes the connection. */
    method Write(p: Packet) returns (r: Outcome)
      requires Shape()
      modifies this, objects
      ensures Shape() && SameTable()
      ensures r == InvalidContentLength <==> p.contentLength != |p.content|
      ensures r == LengthExceeded <==> p.contentLength == |p.content| && max > 0 && p.contentLength > max
      ensures r == ConnectionClosed <==> Sendable(p, max) && !old(open)
      ensures r == Done || r == Failed <==> Sendable(p, max) && old(open)
      ensures r == Failed ==> broken
      ensures r != Failed ==> broken == old(broken)
      ensures r == Done ==> View() == old(View()).(sent := old(View()).sent + [p])
      ensures r == Failed ==> View() == Peers.Disconnect(old(View()))
      ensures r != Done && r != Failed ==> View() == old(View())
      decreases open, 1
    {
      if p.contentLength != |p.content| {
        return InvalidContentLength;
      }
      if max > 0 && p.contentLength > max {
        return LengthExceeded;
      }
      if !open {
        return ConnectionClosed;
      }
      var ok := Transmit();
      if !ok {
        Disconnect();
        return Failed;
      }
      sent := sent + [p];
      r := Done;
    }

    /** The writes to the connection. */
    method Transmit() returns (ok: bool)
      modifies this`broken
      ensures broken == (old(broken) || !ok)
    {
      ok := *;
      broken := broken || !ok;
    }

    /** close, by its winner: the connection is marked closed, then every stream in the
        table is closed; their closing frames are refused. */
    method Disconnect()
      requires Shape() && open
      modifies this, objects
      ensures Shape() && SameTable() && View() == Peers.Disconnect(old(View())) && broken == old(broken)
      decreases open, 0
    {
      hide Views, Shape, View;
      ghost var e := View();
      MarkClosed();
      TableIsShaped();
      assert Part(e, e.table.Keys) == e.objects;
      var ids := streams.Keys;
      while ids != {}
        invariant Shape() && SameTable() && ids <= streams.Keys == e.table.Keys && !open && broken == old(broken)
        invariant View() == e.(open := false, objects := Part(e, ids))
        decreases ids
      {
        var id :| id in ids;
        TableIsShaped();
        PartStep(e, ids, id);
        CloseEntry(id);
        ids := ids - {id};
      }
    }

    /** stream.closeSend(false) for one entry of the table of a closed connection. */
    method CloseEntry(id: uint16)
      requires Shape() && !open && id in streams
      modifies this, objects
      ensures Shape() && SameTable() && !open && broken == old(broken)
      ensures var e, n := old(View()), old(View().table[id]);
        n < |e.objects| && View() == e.(objects := e.objects[n := Shut(e.objects[n])])
      decreases open, 3
    {
      TableIsShaped();
      hide Views, Shape, View;
      var r := streams[id].CloseSend(false);
      TableIsShaped();
    }

    /** The compare-and-swap. */
    method MarkClosed()
      requires Shape()
      modifies this`open
      ensures Shape() && !open && View() == old(View()).(open := false)
    {
      open := false;
    }

    // The calls of the API

    /** WritePacket. */
    method WritePacket(p: Packet) returns (r: Outcome)
      requires Valid()
      modifies this, objects
      ensures Valid() && SameTable()
      ensures View() == Peers.Do(old(View()), if r == Failed then Peers.CloseConn else Peers.Send(p))
      ensures r == InvalidOperation <==> p.operation <= RESERVED9
      ensures r == Done ==> sent == old(sent) + [p]
      ensures p.operation > RESERVED9 && Sendable(p, max) && old(open) && !broken ==> r == Done
      ensures p.operation > RESERVED9 && Sendable(p, max) && !old(open) ==> r == ConnectionClosed
    {
      hide Views, Shape, View, Peers.Ok, Peers.Disconnect;
      Peers.DoOk(View(), Peers.Send(p));
      Peers.DoOk(View(), Peers.CloseConn);
      TableIsShaped();
      if p.operation <= RESERVED9 {
        return InvalidOperation;
      }
      SentInView();
      r := Write(p);
      SentInView();
    }

    /** The write of pingLoop. */
    method Ping() returns (r: Outcome)
      requires Valid()
      modifies this, objects
      ensures Valid() && SameTable()
      ensures View() == Peers.Do(old(View()), if r == Failed then Peers.CloseConn else Peers.SendPing)
    {
      hide Views, Shape, View, Peers.Ok, Peers.Disconnect;
      Peers.DoOk(View(), Peers.SendPing);
      Peers.DoOk(View(), Peers.CloseConn);
      TableIsShaped();
      r := Write(PINGPacket);
    }

    /** NewStream: the registered stream of that id, or a fresh one. */
    method NewStream(id: uint16) returns (s: StreamObject)
      requires Valid()
      modifies this
      ensures Valid() && View() == Peers.Do(old(View()), Peers.NewStream(id))
      ensures id in streams && s == streams[id] && (id in old(streams) ==> streams == old(streams))
      ensures id !in old(streams) ==> fresh(s) && s.View() == Fresh(id)
    {
      hide Views, Shape, View, Peers.Ok, Peers.Create;
      Peers.DoOk(View(), Peers.NewStream(id));
      TableIsShaped();
      if id in streams {
        s := streams[id];
      } else {
        s := Register(id);
      }
    }

    /** newStream, and its entry in the table. */
    method Register(id: uint16) returns (s: StreamObject)
      requires Shape() && id !in streams
      modifies this
      ensures Shape() && fresh(s) && s.View() == Fresh(id) && streams == old(streams)[id := s]
      ensures objects == old(objects) + [s] && handler == old(handler) && View() == Peers.Create(old(View()), id)
    {
      s := new StreamObject(id, this, |objects|);
      streams := streams[id := s];
      objects, closes := objects + [s], closes + [0];
      assert Views(objects) == old(Views(objects)) + [Fresh(id)];
      assert Table() == old(Table())[id := |old(objects)|];
    }

    method SetNewStreamHandler(on: bool)
      requires Valid()
      modifies this`handler
      ensures Valid() && handler == on && View() == Peers.Do(old(View()), Peers.SetHandler(on))
    {
      Peers.DoOk(View(), Peers.SetHandler(on));
      hide Peers.Ok;
      handler := on;
    }

    /** Close. */
    method Close()
      requires Valid()
      modifies this, objects
      ensures Valid() && SameTable() && !open && View() == Peers.Do(old(View()), Peers.CloseConn)
      ensures old(open) ==> forall id :: id in streams ==> streams[id].closed
    {
      hide Views, Shape, View, Peers.Ok;
      Peers.DoOk(View(), Peers.CloseConn);
      TableIsShaped();
      if open {
        Peers.DisconnectCloses(View());
        Disconnect();
      }
      TableIsShaped();
    }

    // readLoop on one frame

    /** A PING is answered, which may fail and close the connection; a zero-length STREAM
        frame closes the stream of its id without an answer; a STREAM frame with content
        is pushed on it if a handler is set. While the connection is being closed the
        closer holds the stream mutex, and a stream frame gets no further. */
    method ReceiveFrame(p: Packet) returns (failed: bool)
      requires Valid()
      modifies this, objects
      ensures Valid() && View() == Peers.Receive(old(View()), p, failed)
      ensures failed ==> p.operation == PING && broken
      ensures old(open) && p.operation == STREAM && p.contentLength == 0 ==> p.id !in streams
      ensures old(open) && p.operation == STREAM && p.contentLength == 0 && p.id in old(streams) ==>
        old(streams[p.id]).closed && old(streams[p.id]).stale == old(streams[p.id].queue)
      ensures old(open) && p.operation == STREAM && p.contentLength != 0 && handler ==>
        p.id in streams && !streams[p.id].closed &&
        streams[p.id].pushed == (if p.id in old(streams) then old(streams[p.id].pushed) else []) + [p]
    {
      TableIsShaped();
      Peers.ReceiveOk(View(), p, false);
      Peers.ReceiveOk(View(), p, true);
      ReceiveIs(View(), p);
      hide Views, Shape, View, Peers.Ok, Peers.Disconnect, Peers.Receive, Peers.ReceiveClose, Peers.ReceiveData;
      failed := false;
      if p.operation == PING {
        var r := Write(PONGPacket);
        failed := r == Failed;
      } else if p.operation == STREAM && open {
        if p.contentLength == 0 {
          ReceiveClose(p.id);
        } else {
          ReceiveData(p);
        }
      }
    }

    method ReceiveClose(id: uint16)
      requires Shape()
      modifies this, objects
      ensures Shape() && View() == Peers.ReceiveClose(old(View()), id)
      ensures objects == old(objects) && sent == old(sent)
    {
      TableIsShaped();
      hide Views, Shape, View, Shut, StreamObject.View;
      if id in streams {
        var s := streams[id];
        s.CloseQuietly();
        Forget(id);
      }
    }

    /** delete(c.streams, id). */
    method Forget(id: uint16)
      requires Shape()
      modifies this`streams
      ensures Shape() && streams == old(streams) - {id}
      ensures View() == old(View()).(table := old(View()).table - {id})
    {
      streams := streams - {id};
      assert Table() == old(Table()) - {id};
    }

    method ReceiveData(p: Packet)
      requires Shape()
      modifies this, objects
      ensures Shape() && View() == Peers.ReceiveData(old(View()), p)
      ensures sent == old(sent)
    {
      if handler {
        if p.id !in streams {
          var s := Register(p.id);
        }
        PushOn(p);
      }
    }

    /** stream.queue.Push, on the stream of the packet's id. */
    method PushOn(p: Packet)
      requires Shape() && p.id in streams
      modifies this, objects
      ensures Shape() && objects == old(objects)
      ensures p.id in old(View()).table && old(View()).table[p.id] < |old(View()).objects|
      ensures View() == Pushed(old(View()), old(View()).table[p.id], p)
    {
      TableIsShaped();
      hide Views, Shape, View, Push, StreamObject.View;
      var s := streams[p.id];
      s.Enqueue(p);
      NoteTaken(p);
    }

    ghost method NoteTaken(p: Packet)
      requires Shape()
      modifies this`taken
      ensures Shape() && View() == old(View()).(taken := old(View()).taken + [p])
    {
      taken := taken + [p];
    }

    lemma SentInView()
      ensures View().sent == sent
    {
    }

    /** What Shape says of the view. */
    lemma TableIsShaped()
      requires Shape()
      ensures View().table.Keys == streams.Keys && |View().closes| == |View().objects| == |objects|
      ensures View().open == open && View().max == max
      ensures forall id :: id in streams ==>
        && streams[id] in objects && streams[id].conn == this && streams[id].number == View().table[id] < |objects|
        && View().objects[View().table[id]].id == id && View().objects[View().table[id]] == streams[id].View()
    {
    }
  }

  function Pushed(e: Peers.Endpoint, o: nat, p: Packet): Peers.Endpoint
    requires o < |e.objects|
  {
    e.(objects := e.objects[o := Push(e.objects[o], p)], taken := e.taken + [p])
  }

  /** The streams of e after those in the table, but for ids, have been closed. */
  function Part(e: Peers.Endpoint, ids: set<uint16>): (s: seq<Stream>)
    ensures |s| == |e.objects|
  {
    seq(|e.objects|, o requires 0 <= o < |e.objects| =>
      if e.objects[o].id in e.table - ids && e.table[e.objects[o].id] == o then Shut(e.objects[o]) else e.objects[o])
  }

  lemma PartStep(e: Peers.Endpoint, ids: set<uint16>, id: uint16)
    requires id in ids && id in e.table && e.table[id] < |e.objects| && e.objects[e.table[id]].id == id
    ensures var o := e.table[id];
      Part(e, ids - {id}) == Part(e, ids)[o := Shut(Part(e, ids)[o])]
  {
  }

  ghost function Views(objects: seq<StreamObject>): (s: seq<Stream>)
    reads objects
    ensures |s| == |objects| && forall o :: 0 <= o < |objects| ==> s[o] == objects[o].View()
  {
    seq(|objects|, o requires 0 <= o < |objects| reads objects => objects[o].View())
  }

  class StreamObject {
    const id: uint16
    const conn: Conn
    ghost const number: nat
    var closed: bool
    var queue: seq<Packet>
    var stale: seq<Packet>
    ghost var pushed: seq<Packet>
    ghost var delivered: seq<Packet>

    constructor (id: uint16, conn: Conn, ghost number: nat)
      ensures View() == Fresh(id) && this.id == id && this.conn == conn && this.number == number
    {
      this.id, this.conn, this.number, closed, queue, stale := id, conn, number, false, [], [];
      pushed, delivered := [], [];
    }

    ghost function View(): Stream
      reads this
    {
      Stream(id, closed, queue, stale, pushed, delivered)
    }

    /** closeSend: the first close drains the queue, sends one closing frame if the
        connection still takes it, and (for Close) leaves the table. */
    method CloseSend(lock: bool) returns (r: Outcome)
      requires conn.Shape() && this in conn.objects
      modifies this, conn, conn.objects
      ensures conn.Shape() && conn.objects == old(conn.objects)
      ensures conn.streams == (if lock && !old(closed) then old(conn.streams) - {id} else old(conn.streams))
      ensures conn.View() == Peers.Close(old(conn.View()), number, lock, r == Failed)
      ensures r == StreamClosed <==> old(closed)
      ensures r == ConnectionClosed <==> !old(closed) && !old(conn.open)
      ensures r == Failed ==> old(conn.open) && conn.broken
      ensures r != Failed ==> conn.broken == old(conn.broken)
      decreases conn.open, 2, 1
    {
      InView();
      hide Views, Conn.Shape, Conn.View, Peers.SendClose, Shut;
      if closed {
        return StreamClosed;
      }
      Drain();
      r := SendClose();
      if lock {
        conn.Forget(id);
      }
    }

    /** The closing frame. */
    method SendClose() returns (r: Outcome)
      requires conn.Shape() && this in conn.objects
      modifies conn, conn.objects
      ensures conn.Shape() && conn.objects == old(conn.objects) && conn.streams == old(conn.streams)
      ensures r == Done || r == ConnectionClosed || r == Failed
      ensures r == ConnectionClosed <==> !old(conn.open)
      ensures r == Failed ==> conn.broken
      ensures r != Failed ==> conn.broken == old(conn.broken)
      ensures number < |old(conn.View()).closes|
      ensures conn.View() == Peers.SendClose(old(conn.View()), number, id, r == Failed)
      decreases conn.open, 2, 0
    {
      InView();
      hide Views, Conn.Shape, Conn.View, Peers.Disconnect;
      r := conn.Write(ClosePacket(id));
      if r == Done {
        CountClose();
      }
    }

    /** The view of the connection shows this stream. */
    lemma InView()
      requires conn.Shape() && this in conn.objects
      ensures number < |conn.objects| == |conn.View().objects| == |conn.View().closes|
      ensures conn.View().objects[number] == View() && conn.View().open == conn.open
    {
    }

    /** queue.Close and Drain, by the first close. */
    method Drain()
      requires conn.Shape() && this in conn.objects && !closed
      modifies this
      ensures conn.Shape() && View() == Shut(old(View()))
      ensures conn.View() == old(conn.View()).(objects := old(conn.View()).objects[number := View()])
    {
      closed, stale, queue := true, queue, [];
      conn.Replaced(number);
    }

    ghost method CountClose()
      requires conn.Shape() && this in conn.objects
      modifies conn`closes
      ensures conn.Shape() && number < |old(conn.closes)|
      ensures old(conn.closes) == old(conn.View()).closes
      ensures conn.View() == old(conn.View()).(closes := old(conn.closes)[number := old(conn.closes)[number] + 1])
    {
      conn.closes := conn.closes[number := conn.closes[number] + 1];
    }

    /** Close: the stream is closed for good, whether or not its closing frame gets out. */
    method Close() returns (r: Outcome)
      requires conn.Valid() && this in conn.objects
      modifies this, conn, conn.objects
      ensures conn.Valid() && closed
      ensures conn.View() == Peers.Do(old(conn.View()), Peers.CloseStream(number, r == Failed))
      ensures r == Failed ==> conn.broken
      ensures !old(closed) && old(conn.open) && !conn.broken ==> conn.sent == old(conn.sent) + [ClosePacket(id)]
      ensures r == StreamClosed <==> old(closed)
    {
      InView();
      Peers.DoOk(conn.View(), Peers.CloseStream(number, true));
      Peers.DoOk(conn.View(), Peers.CloseStream(number, false));
      CloseIsDo(conn.View(), number);
      hide Views, Conn.Shape, Conn.View, Peers.Ok, Peers.Close, Peers.Do;
      r := CloseSend(true);
      InView();
    }

    /** ReadPacket: packets come out in push order whether or not the stream is closed, and
        the close is reported only when every packet pushed has been delivered. On an open
        stream with nothing queued it waits. */
    method ReadPacket() returns (p: seq<Packet>, r: Outcome)
      requires conn.Valid() && this in conn.objects
      modifies this
      ensures conn.Valid() && conn.View() == Peers.Do(old(conn.View()), Peers.ReadStream(number))
      ensures delivered == old(delivered) + p && pushed == old(pushed) && closed == old(closed)
      ensures r == Done <==> |p| == 1
      ensures r == StreamClosed <==> p == [] && closed
      ensures r == Waits <==> p == [] && !closed
      ensures p == [] ==> delivered == pushed
    {
      InView();
      Peers.DoOk(conn.View(), Peers.ReadStream(number));
      ReadsInOrder();
      ReadIsDo(conn.View(), number);
      hide Views, Conn.Shape, Conn.View, Peers.Ok, Peers.Do;
      p, r := TakeFront();
    }

    method TakeFront() returns (p: seq<Packet>, r: Outcome)
      requires conn.Shape() && this in conn.objects
      modifies this
      ensures conn.Shape() && View() == Taken(old(View())) && p <= Front(old(View())) && |p| <= 1
      ensures p == [] <==> Front(old(View())) == []
      ensures r == (if p != [] then Done else if closed then StreamClosed else Waits)
      ensures conn.View() == old(conn.View()).(objects := old(conn.View()).objects[number := View()])
    {
      p := [];
      if closed {
        r := StreamClosed;
        if |stale| > 0 {
          p, r := [stale[0]], Done;
          stale, delivered := stale[1..], delivered + p;
        }
      } else {
        r := Waits;
        if |queue| > 0 {
          p, r := [queue[0]], Done;
          queue, delivered := queue[1..], delivered + p;
        }
      }
      conn.Replaced(number);
    }

    lemma ReadsInOrder()
      requires conn.Valid() && this in conn.objects
      ensures pushed == delivered + Front(View())
      ensures delivered + [] == delivered
    {
      InView();
      assert Conserved(conn.View().objects[number]);
    }

    /** WritePacket: the packet goes out under the stream's id, or not at all; an empty
        one, which would read as a close, is refused. */
    method WritePacket(p: Packet) returns (r: Outcome)
      requires conn.Valid() && this in conn.objects
      modifies conn, conn.objects
      ensures conn.Valid()
      ensures conn.View() ==
        Peers.Do(old(conn.View()), if r == Failed then Peers.CloseConn else Peers.WriteStream(number, p))
      ensures r == StreamClosed <==> old(closed)
      ensures r == InvalidStreamPacket <==> !old(closed) && p.contentLength == 0
      ensures r == Done ==> conn.sent == old(conn.sent) + [Stamped(p, id)]
      ensures !old(closed) && p.content != [] && Sendable(p, conn.max) ==>
        r == (if !old(conn.open) then ConnectionClosed else if r == Failed then Failed else Done)
      ensures r == Failed ==> conn.broken
    {
      InView();
      Peers.DoOk(conn.View(), Peers.WriteStream(number, p));
      Peers.DoOk(conn.View(), Peers.CloseConn);
      conn.TableIsShaped();
      WriteIsDo(conn.View(), number, p);
      hide Views, Conn.Shape, Conn.View, Peers.Ok, Peers.Disconnect, Peers.Do;
      if closed {
        return StreamClosed;
      }
      if p.contentLength == 0 {
        return InvalidStreamPacket;
      }
      conn.SentInView();
      r := conn.Write(Stamped(p, id));
      conn.SentInView();
    }

    /** queue.Push. */
    method Enqueue(p: Packet)
      requires conn.Shape() && this in conn.objects
      modifies this
      ensures conn.Shape() && View() == Push(old(View()), p)
      ensures number < |old(conn.View()).objects| && old(View()) == old(conn.View()).objects[number]
      ensures conn.View() == old(conn.View()).(objects := old(conn.View()).objects[number := View()])
    {
      InView();
      queue, pushed := queue + [p], pushed + [p];
      conn.Replaced(number);
    }

    /** close: the same on receipt of a closing frame, with nothing sent. */
    method CloseQuietly()
      requires conn.Shape() && this in conn.objects
      modifies this
      ensures conn.Shape() && View() == Shut(old(View()))
      ensures number < |old(conn.View()).objects| && old(View()) == old(conn.View()).objects[number]
      ensures conn.View() == old(conn.View()).(objects := old(conn.View()).objects[number := View()])
    {
      InView();
      if !closed {
        closed, stale, queue := true, queue, [];
      }
      conn.Replaced(number);
    }
  }

  function Taken(s: Stream): Stream {
    if Front(s) == [] then s else Take(s)
  }

  lemma ReadIsDo(e: Peers.Endpoint, o: nat)
    requires o < |e.objects|
    ensures Peers.Do(e, Peers.ReadStream(o)) == e.(objects := e.objects[o := Taken(e.objects[o])])
  {
    assert Front(e.objects[o]) == [] ==> e.objects[o := e.objects[o]] == e.objects;
  }

  lemma CloseIsDo(e: Peers.Endpoint, o: nat)
    requires o < |e.objects| && o < |e.closes|
    ensures forall failed :: Peers.Do(e, Peers.CloseStream(o, failed)) == Peers.Close(e, o, true, failed)
    ensures forall failed :: o < |Peers.Close(e, o, true, failed).objects| && Peers.Close(e, o, true, failed).objects[o].closed
  {
  }

  lemma ReceiveIs(e: Peers.Endpoint, p: Packet)
    ensures e.open && p.operation == PING ==>
      Peers.Receive(e, p, false) == e.(sent := e.sent + [PONGPacket]) && Peers.Receive(e, p, true) == Peers.Disconnect(e)
    ensures e.open && p.operation == STREAM && p.contentLength == 0 ==> Peers.Receive(e, p, false) == Peers.ReceiveClose(e, p.id)
    ensures e.open && p.operation == STREAM && p.contentLength != 0 ==> Peers.Receive(e, p, false) == Peers.ReceiveData(e, p)
    ensures !e.open || (p.operation != PING && p.operation != STREAM) ==> Peers.Receive(e, p, false) == e
  {
  }

  lemma WriteIsDo(e: Peers.Endpoint, o: nat, p: Packet)
    requires o < |e.objects|
    ensures Peers.Do(e, Peers.WriteStream(o, p)) ==
      if e.objects[o].closed || p.contentLength == 0 then e else Peers.Emit(e, Stamped(p, e.objects[o].id))
    ensures Peers.Do(e, Peers.CloseConn) == if e.open then Peers.Disconnect(e) else e
  {
  }
}
