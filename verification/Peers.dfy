/** Two Async endpoints joined by their wires, with frames and API calls as atomic
    steps: stream demultiplexing, close traffic and ping traffic over every run. */
module Peers {
  import opened MetadataCodec
  import opened Wire
  import opened Streams

  /** One side. Stream objects are numbered in order of creation; `closes` counts the
      closing frames each has sent. `sent` are the packets accepted for the wire, in
      order, and `taken` the stream data frames that arrived while a handler was set. */
  datatype Endpoint = Endpoint(
    max: uint32,
    open: bool,
    handler: bool,
    objects: seq<Stream>,
    closes: seq<nat>,
    table: map<uint16, nat>,
    sent: seq<Packet>,
    taken: seq<Packet>)

  predicate Initial(e: Endpoint) {
    e == Endpoint(e.max, true, e.handler, [], [], map[], [], [])
  }

  // The calls

  datatype Call =
    | Send(packet: Packet)                     // WritePacket
    | SendPing                                 // pingLoop
    | NewStream(id: uint16)
    | WriteStream(object: nat, packet: Packet)
    | ReadStream(object: nat)
    | CloseStream(object: nat, failed: bool)   // the closing frame may fail to be written
    | SetHandler(on: bool)
    | CloseConn

  function Emit(e: Endpoint, p: Packet): Endpoint {
    if e.open && Sendable(p, e.max) then e.(sent := e.sent + [p]) else e
  }

  function Create(e: Endpoint, id: uint16): Endpoint {
    e.(objects := e.objects + [Fresh(id)], closes := e.closes + [0], table := e.table[id := |e.objects|])
  }

  /** close: the streams in the table are closed; their closing frames are refused
      because the connection is already marked closed, and the table stays. */
  function Disconnect(e: Endpoint): Endpoint {
    e.(open := false,
       objects := seq(|e.objects|, o requires 0 <= o < |e.objects| =>
         if e.objects[o].id in e.table && e.table[e.objects[o].id] == o then Shut(e.objects[o]) else e.objects[o]))
  }

  /** Writing the closing frame of object o. If it fails the connection is closed; if the
      connection is closed already it is refused. */
  function SendClose(e: Endpoint, o: nat, id: uint16, failed: bool): Endpoint
    requires o < |e.closes|
  {
    if !e.open then e
    else if failed then Disconnect(e)
    else e.(sent := e.sent + [ClosePacket(id)], closes := e.closes[o := e.closes[o] + 1])
  }

  /** closeSend: the first close drains the stream, sends its closing frame and, with the
      lock, leaves the table. */
  function Close(e: Endpoint, o: nat, lock: bool, failed: bool): Endpoint
    requires o < |e.objects| && o < |e.closes|
  {
    if e.objects[o].closed then e
    else
      var id := e.objects[o].id;
      var f := SendClose(e.(objects := e.objects[o := Shut(e.objects[o])]), o, id, failed);
      if lock then f.(table := f.table - {id}) else f
  }

  function Do(e: Endpoint, c: Call): Endpoint {
    match c
    case Send(p) => if p.operation <= RESERVED9 then e else Emit(e, p)
    case SendPing => Emit(e, PINGPacket)
    case NewStream(id) => if id in e.table then e else Create(e, id)
    case WriteStream(o, p) =>
      if o >= |e.objects| || e.objects[o].closed || p.contentLength == 0 then e
      else Emit(e, Stamped(p, e.objects[o].id))
    case ReadStream(o) =>
      if o >= |e.objects| || Front(e.objects[o]) == [] then e
      else e.(objects := e.objects[o := Take(e.objects[o])])
    case CloseStream(o, failed) => if o >= |e.objects| || o >= |e.closes| then e else Close(e, o, true, failed)
    case SetHandler(on) => e.(handler := on)
    case CloseConn => if e.open then Disconnect(e) else e
  }

  // Receiving

  function ReceiveClose(e: Endpoint, id: uint16): Endpoint {
    if id in e.table && e.table[id] < |e.objects| then
      var o := e.table[id];
      e.(objects := e.objects[o := Shut(e.objects[o])], table := e.table - {id})
    else e
  }

  function ReceiveData(e: Endpoint, p: Packet): Endpoint {
    if !e.handler then e
    else
      var f := if p.id in e.table then e else Create(e, p.id);
      var o := f.table[p.id];
      if o < |f.objects| then f.(objects := f.objects[o := Push(f.objects[o], p)], taken := f.taken + [p]) else f
  }

  /** readLoop on one frame. A PING is answered; the answer may fail, which closes the
      connection. Once the connection is closed a frame has no effect: an answer is
      refused, and a stream frame waits for the mutex that the closer holds until the
      loop is gone. */
  function Receive(e: Endpoint, p: Packet, failed: bool): Endpoint {
    if !e.open then e else
    match EventOf(p)
    case Ping => if failed then Disconnect(e) else e.(sent := e.sent + [PONGPacket])
    case Pong => e
    case Data(_) => e
    case StreamClose(id) => ReceiveClose(e, id)
    case StreamData(q) => ReceiveData(e, q)
  }

  // Per-endpoint invariant

  function PushedFor(objects: seq<Stream>, id: uint16): seq<Packet> {
    if objects == [] then []
    else
      var last := objects[|objects| - 1];
      PushedFor(objects[..|objects| - 1], id) + (if last.id == id then last.pushed else [])
  }

  function DataFor(ps: seq<Packet>, id: uint16): seq<Packet> {
    if ps == [] then []
    else
      var last := ps[|ps| - 1];
      DataFor(ps[..|ps| - 1], id) + (if last.id == id then [last] else [])
  }

  function Total(ns: seq<nat>): nat {
    if ns == [] then 0 else Total(ns[..|ns| - 1]) + ns[|ns| - 1]
  }

  /** How many packets of ps have operation op and are as the predicate says. */
  function CountOp(ps: seq<Packet>, op: uint16, empty: bool): nat {
    if ps == [] then 0
    else
      var last := ps[|ps| - 1];
      CountOp(ps[..|ps| - 1], op, empty) + (if last.operation == op && (last.content == []) == empty then 1 else 0)
  }

  /** While the connection is open, the open streams are exactly the table entries. */
  predicate OneToOne(objects: seq<Stream>, table: map<uint16, nat>) {
    && (forall id :: id in table ==>
        table[id] < |objects| && objects[table[id]].id == id && !objects[table[id]].closed)
    && (forall o :: 0 <= o < |objects| && !objects[o].closed ==>
        objects[o].id in table && table[objects[o].id] == o)
  }

  /** A later stream of an id exists only once the earlier ones are closed. */
  predicate Successive(objects: seq<Stream>) {
    forall o, q :: 0 <= o < q < |objects| && objects[o].id == objects[q].id ==> objects[o].closed
  }

  /** Each stream conserves its packets and has sent at most one closing frame, and
      that only if it is closed. */
  predicate ObjectsOk(objects: seq<Stream>, closes: seq<nat>) {
    && |closes| == |objects|
    && (forall o :: 0 <= o < |objects| ==> Conserved(objects[o]))
    && (forall o :: 0 <= o < |closes| ==> closes[o] <= 1 && (closes[o] == 1 ==> objects[o].closed))
  }

  /** For each id, the packets pushed across its successive streams are exactly the
      data frames of that id, in order of arrival. */
  ghost predicate Demultiplexed(objects: seq<Stream>, taken: seq<Packet>) {
    forall id :: PushedFor(objects, id) == DataFor(taken, id)
  }

  ghost predicate Ok(e: Endpoint) {
    && ObjectsOk(e.objects, e.closes)
    && (e.open ==> OneToOne(e.objects, e.table) && Successive(e.objects))
    && CountOp(e.sent, STREAM, true) == Total(e.closes)
    && AllSent(e.sent, e.max)
    && Demultiplexed(e.objects, e.taken)
  }

  // Small facts

  lemma CountSnoc(ps: seq<Packet>, p: Packet, op: uint16, empty: bool)
    ensures CountOp(ps + [p], op, empty) ==
      CountOp(ps, op, empty) + (if p.operation == op && (p.content == []) == empty then 1 else 0)
  {
    assert (ps + [p])[..|ps|] == ps;
  }

  lemma {:induction false} TotalBump(ns: seq<nat>, o: nat)
    requires o < |ns|
    ensures Total(ns[o := ns[o] + 1]) == Total(ns) + 1
  {
    var n := |ns| - 1;
    var ms := ns[o := ns[o] + 1];
    if o == n {
      assert ms[..n] == ns[..n];
    } else {
      assert ms[..n] == ns[..n][o := ns[o] + 1];
      TotalBump(ns[..n], o);
    }
  }

  lemma {:induction false} TotalBound(ns: seq<nat>)
    requires forall o :: 0 <= o < |ns| ==> ns[o] <= 1
    ensures Total(ns) <= |ns|
  {
    if ns != [] {
      TotalBound(ns[..|ns| - 1]);
    }
  }

  /** Only the pushed packets of the streams matter. */
  lemma {:induction false} PushedForSame(objects: seq<Stream>, objects': seq<Stream>, id: uint16)
    requires |objects| == |objects'|
    requires forall o :: 0 <= o < |objects| ==>
      objects'[o].id == objects[o].id && objects'[o].pushed == objects[o].pushed
    ensures PushedFor(objects', id) == PushedFor(objects, id)
  {
    if objects != [] {
      PushedForSame(objects[..|objects| - 1], objects'[..|objects| - 1], id);
    }
  }

  lemma PushedForSnoc(objects: seq<Stream>, s: Stream, id: uint16)
    ensures PushedFor(objects + [s], id) == PushedFor(objects, id) + (if s.id == id then s.pushed else [])
  {
    assert (objects + [s])[..|objects|] == objects;
  }

  lemma DataForSnoc(ps: seq<Packet>, p: Packet, id: uint16)
    ensures DataFor(ps + [p], id) == DataFor(ps, id) + (if p.id == id then [p] else [])
  {
    assert (ps + [p])[..|ps|] == ps;
  }

  /** Pushing on the last stream of an id appends to that id's packets and to no other's. */
  lemma {:induction false} PushedForPush(objects: seq<Stream>, o: nat, p: Packet, id: uint16)
    requires o < |objects|
    requires forall q :: o < q < |objects| ==> objects[q].id != objects[o].id
    ensures PushedFor(objects[o := Push(objects[o], p)], id) ==
      PushedFor(objects, id) + (if objects[o].id == id then [p] else [])
  {
    var n := |objects| - 1;
    var objects' := objects[o := Push(objects[o], p)];
    if o == n {
      assert objects'[..n] == objects[..n];
      assert PushedFor(objects[..n], id) + (objects[o].pushed + [p]) ==
        (PushedFor(objects[..n], id) + objects[o].pushed) + [p];
    } else {
      assert objects'[..n] == objects[..n][o := Push(objects[o], p)];
      PushedForPush(objects[..n], o, p, id);
    }
  }

  // Every call and every frame keeps the invariant

  lemma EmitOk(e: Endpoint, p: Packet)
    requires Ok(e) && Bare(p) && !(p.operation == STREAM && p.content == [])
    ensures Ok(Emit(e, p))
  {
    hide Demultiplexed, OneToOne, Successive, ObjectsOk, CountOp, Total;
    CountSnoc(e.sent, p, STREAM, true);
  }

  lemma CreateTable(objects: seq<Stream>, table: map<uint16, nat>, id: uint16)
    requires OneToOne(objects, table) && Successive(objects) && id !in table
    ensures OneToOne(objects + [Fresh(id)], table[id := |objects|]) && Successive(objects + [Fresh(id)])
  {
  }

  lemma CreateDemultiplexed(objects: seq<Stream>, taken: seq<Packet>, id: uint16)
    requires Demultiplexed(objects, taken)
    ensures Demultiplexed(objects + [Fresh(id)], taken)
  {
    forall k
      ensures PushedFor(objects + [Fresh(id)], k) == DataFor(taken, k)
    {
      PushedForSnoc(objects, Fresh(id), k);
    }
  }

  lemma CreateOk(e: Endpoint, id: uint16)
    requires Ok(e) && id !in e.table
    ensures Ok(Create(e, id))
  {
    hide Demultiplexed, OneToOne, Successive, CountOp;
    if e.open {
      CreateTable(e.objects, e.table, id);
    }
    CreateDemultiplexed(e.objects, e.taken, id);
    assert (e.closes + [0])[..|e.closes|] == e.closes;
  }

  /** Replacing one stream by itself closed, or with a packet taken, changes no history. */
  lemma ReplaceDemultiplexed(objects: seq<Stream>, taken: seq<Packet>, o: nat, s: Stream)
    requires o < |objects| && Demultiplexed(objects, taken) && s.id == objects[o].id && s.pushed == objects[o].pushed
    ensures Demultiplexed(objects[o := s], taken)
  {
    forall k
      ensures PushedFor(objects[o := s], k) == DataFor(taken, k)
    {
      PushedForSame(objects, objects[o := s], k);
    }
  }

  lemma ReadOk(e: Endpoint, o: nat)
    requires Ok(e) && o < |e.objects| && Front(e.objects[o]) != []
    ensures Ok(e.(objects := e.objects[o := Take(e.objects[o])]))
  {
    hide Demultiplexed, CountOp, Total, Conserved;
    StreamKeepsConserved(e.objects[o], ClosePacket(0));
    ReplaceDemultiplexed(e.objects, e.taken, o, Take(e.objects[o]));
  }

  lemma ShutOk(e: Endpoint, o: nat)
    requires Ok(e) && o < |e.objects| && !e.objects[o].closed
    ensures Ok(e.(objects := e.objects[o := Shut(e.objects[o])], table := e.table - {e.objects[o].id}))
  {
    hide Demultiplexed, CountOp, Total, Conserved;
    StreamKeepsConserved(e.objects[o], ClosePacket(0));
    ReplaceDemultiplexed(e.objects, e.taken, o, Shut(e.objects[o]));
  }

  /** A stream that cannot write its closing frame takes the connection with it. */
  lemma CloseFails(e: Endpoint, o: nat)
    requires Ok(e) && o < |e.objects| && e.open && !e.objects[o].closed
    ensures o < |e.closes| && Close(e, o, true, true) == Disconnect(e).(table := e.table - {e.objects[o].id})
  {
    hide Demultiplexed, CountOp, Total, Conserved, Successive;
    assert Disconnect(e.(objects := e.objects[o := Shut(e.objects[o])])).objects == Disconnect(e).objects;
  }

  lemma CloseSucceeds(e: Endpoint, o: nat)
    requires Ok(e) && o < |e.objects| && !e.objects[o].closed
    ensures o < |e.closes| && Ok(Close(e, o, true, false))
  {
    hide Demultiplexed, CountOp, Total, Conserved, OneToOne, Successive;
    ShutOk(e, o);
    if e.open {
      CountSnoc(e.sent, ClosePacket(e.objects[o].id), STREAM, true);
      TotalBump(e.closes, o);
    }
  }

  lemma ClosedTable(e: Endpoint, table: map<uint16, nat>)
    requires Ok(e) && !e.open
    ensures Ok(e.(table := table))
  {
    hide Demultiplexed, CountOp, Total, ObjectsOk;
  }

  lemma CloseOk(e: Endpoint, o: nat, failed: bool)
    requires Ok(e) && o < |e.objects|
    ensures o < |e.closes| && Ok(Close(e, o, true, failed))
  {
    hide Demultiplexed, CountOp, Total, Conserved, OneToOne, Successive, Disconnect;
    if !e.objects[o].closed {
      CloseSucceeds(e, o);
      if e.open && failed {
        CloseFails(e, o);
        DisconnectOk(e);
        IsDisconnected(e);
        ClosedTable(Disconnect(e), e.table - {e.objects[o].id});
      }
    }
  }

  lemma IsDisconnected(e: Endpoint)
    ensures var f := Disconnect(e);
      !f.open && f.sent == e.sent && f.taken == e.taken && f.table == e.table && |f.objects| == |e.objects|
  {
  }

  lemma DisconnectOk(e: Endpoint)
    requires Ok(e)
    ensures Ok(Disconnect(e))
  {
    hide CountOp, Total, OneToOne, Successive, Conserved;
    var f := Disconnect(e);
    forall o | 0 <= o < |e.objects|
      ensures Conserved(f.objects[o])
    {
      StreamKeepsConserved(e.objects[o], ClosePacket(0));
    }
    forall k
      ensures PushedFor(f.objects, k) == DataFor(f.taken, k)
    {
      PushedForSame(e.objects, f.objects, k);
    }
  }

  lemma DoOk(e: Endpoint, c: Call)
    requires Ok(e)
    ensures Ok(Do(e, c))
  {
    hide Emit, Create, Close, Disconnect, Demultiplexed, OneToOne, Successive;
    match c
    case Send(p) => if p.operation > RESERVED9 { EmitOk(e, p); }
    case SendPing => EmitOk(e, PINGPacket);
    case NewStream(id) => if id !in e.table { CreateOk(e, id); }
    case WriteStream(o, p) =>
      if o < |e.objects| && !e.objects[o].closed && p.contentLength != 0 {
        WriteStreamOk(e, o, p);
      }
    case ReadStream(o) =>
      if o < |e.objects| && Front(e.objects[o]) != [] {
        ReadOk(e, o);
      }
    case CloseStream(o, failed) => if o < |e.objects| { CloseOk(e, o, failed); }
    case SetHandler(on) =>
      assert Ok(e.(handler := on)) by { HandlerOk(e, on); }
    case CloseConn => if e.open { DisconnectOk(e); }
  }

  lemma WriteStreamOk(e: Endpoint, o: nat, p: Packet)
    requires Ok(e) && o < |e.objects| && p.contentLength != 0
    ensures Ok(Emit(e, Stamped(p, e.objects[o].id)))
  {
    hide Ok;
    if Sendable(p, e.max) {
      EmitOk(e, Stamped(p, e.objects[o].id));
    }
  }

  lemma HandlerOk(e: Endpoint, on: bool)
    requires Ok(e)
    ensures Ok(e.(handler := on))
  {
    hide Demultiplexed, OneToOne, Successive, ObjectsOk;
  }

  lemma PushDemultiplexed(objects: seq<Stream>, taken: seq<Packet>, o: nat, p: Packet)
    requires o < |objects| && Demultiplexed(objects, taken) && Successive(objects)
    requires objects[o].id == p.id && !objects[o].closed
    ensures Demultiplexed(objects[o := Push(objects[o], p)], taken + [p])
  {
    forall k
      ensures PushedFor(objects[o := Push(objects[o], p)], k) == DataFor(taken + [p], k)
    {
      PushedForPush(objects, o, p, k);
      DataForSnoc(taken, p, k);
    }
  }

  lemma PushOk(e: Endpoint, p: Packet)
    requires Ok(e) && e.open && p.id in e.table
    ensures var o := e.table[p.id];
      o < |e.objects| && Ok(e.(objects := e.objects[o := Push(e.objects[o], p)], taken := e.taken + [p]))
  {
    hide Demultiplexed, CountOp, Total, Conserved;
    var o := e.table[p.id];
    StreamKeepsConserved(e.objects[o], p);
    PushDemultiplexed(e.objects, e.taken, o, p);
  }

  lemma ReceiveOk(e: Endpoint, p: Packet, failed: bool)
    requires Ok(e)
    ensures Ok(Receive(e, p, failed))
  {
    hide Demultiplexed, Successive, Disconnect, Create, CountOp, Total;
    if !e.open {
      return;
    }
    match EventOf(p)
    case Ping =>
      if failed {
        DisconnectOk(e);
      } else {
        CountSnoc(e.sent, PONGPacket, STREAM, true);
      }
    case Pong =>
    case Data(_) =>
    case StreamClose(id) =>
      if id in e.table {
        ShutOk(e, e.table[id]);
      }
    case StreamData(q) =>
      if e.handler {
        if q.id in e.table {
          PushOk(e, q);
        } else {
          CreateOk(e, q.id);
          CreateAdds(e, q.id);
          PushOk(Create(e, q.id), q);
        }
      }
  }

  lemma CreateAdds(e: Endpoint, id: uint16)
    ensures id in Create(e, id).table && Create(e, id).open == e.open
  {
  }

  // What a call or a frame adds to the outgoing packets

  /** A call only appends to what was sent, never sends a PONG, and never reopens. */
  lemma DoSends(e: Endpoint, c: Call)
    requires Ok(e)
    ensures var f := Do(e, c);
      && e.sent <= f.sent && CountOp(f.sent, PONG, true) == CountOp(e.sent, PONG, true)
      && (f.open ==> e.open) && f.taken == e.taken
  {
    hide Demultiplexed, OneToOne, Successive, CountOp, Total, Ok;
    match c
    case Send(p) => CountSnoc(e.sent, p, PONG, true);
    case SendPing => CountSnoc(e.sent, PINGPacket, PONG, true);
    case WriteStream(o, p) =>
      if o < |e.objects| {
        CountSnoc(e.sent, Stamped(p, e.objects[o].id), PONG, true);
      }
    case CloseStream(o, _) =>
      if o < |e.objects| {
        CountSnoc(e.sent, ClosePacket(e.objects[o].id), PONG, true);
      }
    case _ =>
  }

  /** A frame is answered only if it is a PING, and then by one PONG unless the answer
      fails or the connection is closed; in particular neither a PONG nor a stream close provokes anything. */
  lemma ReceiveSends(e: Endpoint, p: Packet, failed: bool)
    ensures var f := Receive(e, p, failed);
      && f.sent == (if e.open && p.operation == PING && !failed then e.sent + [PONGPacket] else e.sent)
      && (f.open <==> e.open && !(p.operation == PING && failed))
  {
  }

  // What the calls and frames are for

  /** Object o is closed, with everything its readers have not been given still to come. */
  predicate ClosedWith(e: Endpoint, f: Endpoint, o: nat)
    requires o < |e.objects| && o < |f.objects|
  {
    && f.objects[o].closed && f.objects[o].id == e.objects[o].id
    && f.objects[o].pushed == e.objects[o].pushed && f.objects[o].delivered == e.objects[o].delivered
    && Front(f.objects[o]) == Front(e.objects[o])
  }

  /** Nothing but streams of this id, and the entry of this id, is different. */
  ghost predicate OnlyStream(e: Endpoint, f: Endpoint, id: uint16) {
    && |f.objects| == |e.objects|
    && (forall o :: 0 <= o < |e.objects| && e.objects[o].id != id ==> f.objects[o] == e.objects[o])
    && (forall k :: k != id ==> (k in f.table <==> k in e.table))
    && (forall k :: k != id && k in f.table && k in e.table ==> f.table[k] == e.table[k])
    && f.open == e.open && f.handler == e.handler && f.taken == e.taken
  }

  /** A closing frame ends every stream of its id and leaves the rest alone; nothing is
      sent in return. */
  lemma CloseFrameCloses(e: Endpoint, p: Packet, failed: bool)
    requires Ok(e) && e.open && p.operation == STREAM && p.contentLength == 0
    ensures var f := Receive(e, p, failed);
      p.id !in f.table && OnlyStream(e, f, p.id) && f.sent == e.sent && f.closes == e.closes
    ensures var f := Receive(e, p, failed);
      forall o :: 0 <= o < |e.objects| && e.objects[o].id == p.id ==> ClosedWith(e, f, o)
  {
    hide Demultiplexed, CountOp, Total, Successive;
  }

  /** A data frame is pushed on the one open stream of its id, which is made if there is
      none; without a handler it changes nothing. */
  lemma DataFrameIsPushed(e: Endpoint, p: Packet, failed: bool)
    requires Ok(e) && e.open && p.operation == STREAM && p.contentLength != 0
    ensures !e.handler ==> Receive(e, p, failed) == e
    ensures var f := Receive(e, p, failed);
      e.handler ==>
        && p.id in f.table && f.table[p.id] < |f.objects| && !f.objects[f.table[p.id]].closed
        && f.objects[f.table[p.id]].pushed == (if p.id in e.table then e.objects[e.table[p.id]].pushed else []) + [p]
        && f.objects[f.table[p.id]].id == p.id
        && (p.id in e.table ==> f.table == e.table && |f.objects| == |e.objects|)
        && (p.id !in e.table ==> f.table[p.id] == |e.objects| && |f.objects| == |e.objects| + 1)
        && (forall o :: 0 <= o < |e.objects| && o != f.table[p.id] ==> f.objects[o] == e.objects[o])
        && f.sent == e.sent && f.open
  {
    hide Demultiplexed, CountOp, Total, Successive;
  }

  /** Closing an open stream drains it and sends exactly its closing frame. */
  lemma CloseSends(e: Endpoint, o: nat)
    requires Ok(e) && e.open && o < |e.objects| && !e.objects[o].closed
    ensures var f, id := Do(e, CloseStream(o, false)), e.objects[o].id;
      f.sent == e.sent + [ClosePacket(id)] && id !in f.table && OnlyStream(e, f, id) && ClosedWith(e, f, o)
  {
    hide Demultiplexed, CountOp, Total, Successive;
  }

  /** Closing the connection closes every stream in the table, sends nothing, and leaves
      the others as they are. */
  lemma DisconnectCloses(e: Endpoint)
    requires Ok(e) && e.open
    ensures var f := Do(e, CloseConn);
      && !f.open && f.sent == e.sent && |f.objects| == |e.objects|
      && (forall o :: 0 <= o < |e.objects| ==> f.objects[o].closed)
      && (forall o :: 0 <= o < |e.objects| ==> ClosedWith(e, f, o))
  {
    hide Demultiplexed, CountOp, Total, Successive;
  }

  /** What is sent for a call: the packet, exactly if the connection is open, its length is
      right and its operation is not reserved. */
  lemma CallSends(e: Endpoint, p: Packet)
    ensures Do(e, Send(p)).sent == if e.open && Sendable(p, e.max) && p.operation > RESERVED9 then e.sent + [p] else e.sent
    ensures Do(e, SendPing).sent == if e.open then e.sent + [PINGPacket] else e.sent
  {
    hide Close, Disconnect, Create;
  }

  /** A stream's packet goes out under its id, if it has content. */
  lemma StreamWriteSends(e: Endpoint, o: nat, p: Packet)
    requires o < |e.objects|
    ensures Do(e, WriteStream(o, p)).sent ==
      if e.open && Sendable(p, e.max) && !e.objects[o].closed && p.content != []
      then e.sent + [Packet(e.objects[o].id, STREAM, p.contentLength, p.content)] else e.sent
  {
    hide Close, Disconnect, Create;
  }

  // Two endpoints

  /** Two endpoints and how many of each other's packets they have received. */
  datatype Pair = Pair(a: Endpoint, b: Endpoint, toA: nat, toB: nat)

  predicate PairInit(s: Pair) {
    Initial(s.a) && Initial(s.b) && s.a.max == s.b.max && s.toA == 0 && s.toB == 0
  }

  predicate CallStep(s: Pair, s': Pair, c: Call) {
    s' == s.(a := Do(s.a, c)) || s' == s.(b := Do(s.b, c))
  }

  /** The next frame is received, by a reader whose connection is open. */
  predicate FrameStep(s: Pair, s': Pair, failed: bool) {
    || (s.b.open && s.toB < |s.a.sent| && s' == s.(b := Receive(s.b, s.a.sent[s.toB], failed), toB := s.toB + 1))
    || (s.a.open && s.toA < |s.b.sent| && s' == s.(a := Receive(s.a, s.b.sent[s.toA], failed), toA := s.toA + 1))
  }

  ghost predicate PairNext(s: Pair, s': Pair) {
    (exists c :: CallStep(s, s', c)) || (exists failed :: FrameStep(s, s', failed))
  }

  ghost predicate IsPairRun(run: seq<Pair>) {
    && run != [] && PairInit(run[0])
    && forall i :: 0 <= i < |run| - 1 ==> PairNext(run[i], run[i + 1])
  }

  /** The PONGs y has sent, against the PINGs it has received among x's packets. */
  predicate Answered(x: Endpoint, y: Endpoint, n: nat) {
    && n <= |x.sent|
    && CountOp(y.sent, PONG, true) <= CountOp(x.sent[..n], PING, true)
    && (y.open ==> CountOp(y.sent, PONG, true) == CountOp(x.sent[..n], PING, true))
  }

  ghost predicate PairOk(s: Pair) {
    Ok(s.a) && Ok(s.b) && Answered(s.a, s.b, s.toB) && Answered(s.b, s.a, s.toA)
  }

  lemma AnsweredCall(x: Endpoint, y: Endpoint, n: nat, c: Call)
    requires Ok(x) && Ok(y) && Answered(x, y, n)
    ensures Answered(Do(x, c), y, n) && Answered(x, Do(y, c), n)
  {
    hide Do, CountOp, Demultiplexed, OneToOne, Successive;
    DoSends(x, c);
    DoSends(y, c);
    assert Do(x, c).sent[..n] == x.sent[..n];
  }

  lemma AnsweredReceived(x: Endpoint, y: Endpoint, n: nat, failed: bool)
    requires AllSent(x.sent, x.max) && Answered(x, y, n) && n < |x.sent| && y.open
    ensures Answered(x, Receive(y, x.sent[n], failed), n + 1)
  {
    hide Receive, CountOp;
    var p := x.sent[n];
    assert p in x.sent;
    ReceiveSends(y, p, failed);
    assert x.sent[..n + 1] == x.sent[..n] + [p];
    CountSnoc(x.sent[..n], p, PING, true);
    CountSnoc(y.sent, PONGPacket, PONG, true);
  }

  /** Receiving also extends the receiver's own packets. */
  lemma AnsweredOther(x: Endpoint, y: Endpoint, n: nat, p: Packet, failed: bool)
    requires Answered(x, y, n)
    ensures Answered(Receive(x, p, failed), y, n)
  {
    hide Receive, CountOp;
    ReceiveSends(x, p, failed);
    assert Receive(x, p, failed).sent[..n] == x.sent[..n];
  }

  lemma PairNextOk(s: Pair, s': Pair)
    requires PairOk(s) && PairNext(s, s')
    ensures PairOk(s')
  {
    hide Do, Receive, Answered;
    if c :| CallStep(s, s', c) {
      DoOk(s.a, c);
      DoOk(s.b, c);
      AnsweredCall(s.a, s.b, s.toB, c);
      AnsweredCall(s.b, s.a, s.toA, c);
    } else {
      var failed :| FrameStep(s, s', failed);
      if s' == s.(b := s'.b, toB := s.toB + 1) && s.b.open && s.toB < |s.a.sent| && s'.b == Receive(s.b, s.a.sent[s.toB], failed) {
        ReceiveOk(s.b, s.a.sent[s.toB], failed);
        AnsweredReceived(s.a, s.b, s.toB, failed);
        AnsweredOther(s.b, s.a, s.toA, s.a.sent[s.toB], failed);
      } else {
        ReceiveOk(s.a, s.b.sent[s.toA], failed);
        AnsweredReceived(s.b, s.a, s.toA, failed);
        AnsweredOther(s.a, s.b, s.toB, s.b.sent[s.toA], failed);
      }
    }
  }

  lemma InitialOk(e: Endpoint)
    requires Initial(e)
    ensures Ok(e)
  {
  }

  lemma {:induction false} PairRunOk(run: seq<Pair>, i: nat)
    requires IsPairRun(run) && i < |run|
    ensures PairOk(run[i])
  {
    hide Ok, PairNext;
    if i == 0 {
      InitialOk(run[0].a);
      InitialOk(run[0].b);
    } else {
      PairRunOk(run, i - 1);
      assert PairNext(run[i - 1], run[(i - 1) + 1]);
      PairNextOk(run[i - 1], run[i]);
    }
  }

  /** Ping conservation: over every run, the PONGs one side has sent never exceed the
      PINGs the other side has sent, and they are exactly the PINGs it has received
      for as long as its connection stays open. */
  lemma PingsConserved(run: seq<Pair>, i: nat)
    requires IsPairRun(run) && i < |run|
    ensures var s := run[i];
      && CountOp(s.b.sent, PONG, true) <= CountOp(s.a.sent, PING, true)
      && CountOp(s.a.sent, PONG, true) <= CountOp(s.b.sent, PING, true)
      && s.toB <= |s.a.sent| && s.toA <= |s.b.sent|
      && (s.b.open ==> CountOp(s.b.sent, PONG, true) == CountOp(s.a.sent[..s.toB], PING, true))
      && (s.a.open ==> CountOp(s.a.sent, PONG, true) == CountOp(s.b.sent[..s.toA], PING, true))
  {
    hide CountOp, Ok, IsPairRun;
    PairRunOk(run, i);
    CountMonotone(run[i].a.sent, run[i].toB, PING);
    CountMonotone(run[i].b.sent, run[i].toA, PING);
  }

  lemma {:induction false} CountMonotone(ps: seq<Packet>, n: nat, op: uint16)
    requires n <= |ps|
    ensures CountOp(ps[..n], op, true) <= CountOp(ps, op, true)
    decreases |ps| - n
  {
    if n == |ps| {
      assert ps[..n] == ps;
    } else {
      assert ps[..n + 1] == ps[..n] + [ps[n]];
      CountSnoc(ps[..n], ps[n], op, true);
      CountMonotone(ps, n + 1, op);
    }
  }

  ghost predicate FewCloses(e: Endpoint) {
    && |e.closes| == |e.objects|
    && (forall o :: 0 <= o < |e.closes| ==> e.closes[o] <= 1 && (e.closes[o] == 1 ==> e.objects[o].closed))
    && CountOp(e.sent, STREAM, true) == Total(e.closes) <= |e.objects|
  }

  /** Close traffic is finite: each stream object sends at most one closing frame, and
      only once it is closed, so a side sends no more closing frames than it has created
      streams. */
  lemma CloseTrafficFinite(run: seq<Pair>, i: nat)
    requires IsPairRun(run) && i < |run|
    ensures FewCloses(run[i].a) && FewCloses(run[i].b)
  {
    hide CountOp, IsPairRun, Demultiplexed, OneToOne, Successive;
    PairRunOk(run, i);
    TotalBound(run[i].a.closes);
    TotalBound(run[i].b.closes);
  }

  /** No stream of either side ever loses, repeats or reorders a packet. */
  lemma StreamsConserve(run: seq<Pair>, i: nat, o: nat)
    requires IsPairRun(run) && i < |run|
    ensures o < |run[i].a.objects| ==> Conserved(run[i].a.objects[o])
    ensures o < |run[i].b.objects| ==> Conserved(run[i].b.objects[o])
  {
    hide IsPairRun, CountOp, Demultiplexed, OneToOne, Successive, Conserved;
    PairRunOk(run, i);
  }

  /** Frames as steps are what the bytes say: the frames one side has sent decode to
      exactly the events the other side is given, so that no user or stream packet is
      ever taken for a PING, a PONG or a close. */
  lemma StepsAreFrames(run: seq<Pair>, i: nat)
    requires IsPairRun(run) && i < |run|
    ensures Decode(Frames(run[i].a.sent), run[i].a.max) == Decoded(Events(run[i].a.sent), Pending([]))
    ensures Decode(Frames(run[i].b.sent), run[i].b.max) == Decoded(Events(run[i].b.sent), Pending([]))
  {
    hide IsPairRun, CountOp, Demultiplexed, OneToOne, Successive, Decode, Frames;
    PairRunOk(run, i);
    DecodeAllFrames(run[i].a.sent, run[i].a.max);
    DecodeAllFrames(run[i].b.sent, run[i].b.max);
  }

  // The two sides are alike

  function Mirror(s: Pair): Pair {
    Pair(s.b, s.a, s.toB, s.toA)
  }

  function MirrorRun(run: seq<Pair>): (m: seq<Pair>)
    ensures |m| == |run| && forall i :: 0 <= i < |run| ==> m[i] == Mirror(run[i])
  {
    seq(|run|, i requires 0 <= i < |run| => Mirror(run[i]))
  }

  lemma MirrorNext(s: Pair, s': Pair)
    requires PairNext(s, s')
    ensures PairNext(Mirror(s), Mirror(s'))
  {
    hide Do, Receive;
    if c :| CallStep(s, s', c) {
      assert CallStep(Mirror(s), Mirror(s'), c);
    } else {
      var failed :| FrameStep(s, s', failed);
      assert FrameStep(Mirror(s), Mirror(s'), failed);
    }
  }

  /** Whatever holds of every run for one side holds for the other. */
  lemma MirrorIsRun(run: seq<Pair>)
    requires IsPairRun(run)
    ensures IsPairRun(MirrorRun(run))
  {
    hide PairNext;
    var m := MirrorRun(run);
    forall i | 0 <= i < |m| - 1
      ensures PairNext(m[i], m[i + 1])
    {
      MirrorNext(run[i], run[i + 1]);
    }
  }

  /** In every run, when a closing frame that the other side has sent is received, every
      stream of its id is closed with its packets still to be read, and the id is free. */
  lemma RemoteClose(run: seq<Pair>, i: nat)
    requires IsPairRun(run) && i + 1 < |run| && run[i].b.open && run[i].toB < |run[i].a.sent|
    requires EventOf(run[i].a.sent[run[i].toB]).StreamClose? && run[i + 1].toB == run[i].toB + 1
    ensures var e, f, p := run[i].b, run[i + 1].b, run[i].a.sent[run[i].toB];
      p.id !in f.table && OnlyStream(e, f, p.id) && f.sent == e.sent &&
      forall o :: 0 <= o < |e.objects| && e.objects[o].id == p.id ==> ClosedWith(e, f, o)
  {
    PairRunOk(run, i);
    assert PairNext(run[i], run[i + 1]);
    hide IsPairRun, Do, Receive, Ok, OnlyStream, ClosedWith;
    CloseFrameCloses(run[i].b, run[i].a.sent[run[i].toB], false);
    CloseFrameCloses(run[i].b, run[i].a.sent[run[i].toB], true);
  }

  // Demultiplexing over the wire

  /** The stream data packets of ps, in order. */
  function StreamFrames(ps: seq<Packet>): seq<Packet> {
    if ps == [] then []
    else
      var last := ps[|ps| - 1];
      StreamFrames(ps[..|ps| - 1]) + (if EventOf(last).StreamData? then [last] else [])
  }

  /** With a handler set, the stream packets taken are those received. */
  predicate Heard(s: Pair) {
    s.toB <= |s.a.sent| && s.b.taken == StreamFrames(s.a.sent[..s.toB])
  }

  lemma HeardNext(s: Pair, s': Pair)
    requires PairOk(s) && PairNext(s, s') && Heard(s) && s.b.handler
    ensures Heard(s')
  {
    hide Do, Receive, CountOp, Demultiplexed, Successive;
    if c :| CallStep(s, s', c) {
      DoSends(s.a, c);
      DoSends(s.b, c);
      assert Do(s.a, c).sent[..s.toB] == s.a.sent[..s.toB];
    } else {
      var failed :| FrameStep(s, s', failed);
      if s'.toB == s.toB + 1 {
        var p := s.a.sent[s.toB];
        TakenByReceive(s.b, p, failed);
        var n := s.toB;
        assert s.a.sent[..n + 1][..n] == s.a.sent[..n];
      } else {
        ReceiveSends(s.a, s.b.sent[s.toA], failed);
        assert s'.a.sent[..s.toB] == s.a.sent[..s.toB];
      }
    }
  }

  lemma TakenByReceive(e: Endpoint, p: Packet, failed: bool)
    requires Ok(e) && e.open && e.handler
    ensures Receive(e, p, failed).taken == e.taken + (if EventOf(p).StreamData? then [p] else [])
  {
    hide CountOp, Demultiplexed, Successive;
  }

  lemma {:induction false} HeardAlways(run: seq<Pair>, i: nat)
    requires IsPairRun(run) && i < |run| && forall k :: 0 <= k < |run| ==> run[k].b.handler
    ensures Heard(run[i])
  {
    hide PairNext, PairOk;
    if i > 0 {
      HeardAlways(run, i - 1);
      PairRunOk(run, i - 1);
      assert PairNext(run[i - 1], run[(i - 1) + 1]);
      HeardNext(run[i - 1], run[i]);
    }
  }

  /** Stream demultiplexing: with a handler set, for each id the packets pushed across
      the successive streams of that id on one side are exactly the STREAM data frames
      with that id among those received from the other side, in wire order; and while
      the connection is open its open streams are exactly the entries of its table. */
  lemma Demultiplexing(run: seq<Pair>, i: nat, id: uint16)
    requires IsPairRun(run) && i < |run| && forall k :: 0 <= k < |run| ==> run[k].b.handler
    ensures var s := run[i];
      && s.toB <= |s.a.sent|
      && PushedFor(s.b.objects, id) == DataFor(StreamFrames(s.a.sent[..s.toB]), id)
      && (s.b.open ==> OneToOne(s.b.objects, s.b.table))
  {
    hide IsPairRun, CountOp, StreamFrames, PushedFor, DataFor, OneToOne;
    PairRunOk(run, i);
    HeardAlways(run, i);
  }

  /** The same in the other direction. */
  lemma DemultiplexingBack(run: seq<Pair>, i: nat, id: uint16)
    requires IsPairRun(run) && i < |run| && forall k :: 0 <= k < |run| ==> run[k].a.handler
    ensures var s := run[i];
      && s.toA <= |s.b.sent|
      && PushedFor(s.a.objects, id) == DataFor(StreamFrames(s.b.sent[..s.toA]), id)
      && (s.a.open ==> OneToOne(s.a.objects, s.a.table))
  {
    hide IsPairRun, CountOp, StreamFrames, PushedFor, DataFor, OneToOne;
    MirrorIsRun(run);
    Demultiplexing(MirrorRun(run), i, id);
  }
}
