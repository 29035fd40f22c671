/** The dispatch loops that run handlers one packet at a time: the server's single-packet
    mode and the client. Who owns which packet object is tracked through every call. */
module Handlers {
  import opened MetadataCodec
  import opened Wire
  import opened Options

  type Pid = nat      // packet object

  /** A packet as the dispatch loop sees it: the object, and the operation it selects
      its handler with. */
  datatype Incoming = Incoming(id: Pid, operation: uint16)

  datatype Outgoing = Outgoing(id: Pid, operation: uint16, contentLength: uint32, size: nat)

  /** Any action but CLOSE is treated as NONE by both loops. */
  datatype Action = NONE | CLOSE | Other

  datatype Cause = ReadError | WriteError

  /** The length test of the dispatch loops, on the size cut down to 32 bits. */
  predicate Fits(o: Outgoing) {
    o.contentLength as nat == o.size % 0x1_0000_0000
  }

  /** What WritePacket accepts at most; a size of 2^32 or more may fit and is refused. */
  predicate Writable(o: Outgoing) {
    o.operation > RESERVED9 && o.contentLength as nat == o.size
  }

  /** A handler's answer, and the packet it was called with. */
  datatype Reply = Reply(input: Pid, answer: Outgoing)

  /** The answers whose declared length is their size, as far as 32 bits tell. */
  function Right(replies: seq<Reply>): seq<Outgoing> {
    if replies == [] then []
    else
      var before, o := Right(replies[..|replies| - 1]), replies[|replies| - 1].answer;
      if o.contentLength as nat == o.size % 0x1_0000_0000 then before + [o] else before
  }

  /** The packets of the other answers that are not the input itself. */
  function Wrong(replies: seq<Reply>): multiset<Pid> {
    if replies == [] then multiset{}
    else
      var before, r := Wrong(replies[..|replies| - 1]), replies[|replies| - 1];
      if r.answer.contentLength as nat != r.answer.size % 0x1_0000_0000 && r.answer.id != r.input
      then before + multiset{r.answer.id} else before
  }

  lemma RightSnoc(replies: seq<Reply>, r: Reply)
    ensures Right(replies + [r]) == if Fits(r.answer) then Right(replies) + [r.answer] else Right(replies)
    ensures Wrong(replies + [r]) ==
      if !Fits(r.answer) && r.answer.id != r.input then Wrong(replies) + multiset{r.answer.id} else Wrong(replies)
  {
    assert (replies + [r])[..|replies|] == replies;
  }

  /** Which answers are written: every one whose length is right, and none whose length is
      wrong, but for a size that 32 bits do not hold. */
  lemma {:induction false} RightMeans(replies: seq<Reply>, r: Reply)
    ensures forall o :: o in Right(replies) ==> o.contentLength as nat == o.size % 0x1_0000_0000
    ensures r in replies && r.answer.contentLength as nat == r.answer.size ==> r.answer in Right(replies)
    ensures r.answer.size < 0x1_0000_0000 && r.answer.contentLength as nat != r.answer.size ==> r.answer !in Right(replies)
  {
    if replies != [] {
      var n := |replies| - 1;
      assert replies == replies[..n] + [replies[n]];
      RightMeans(replies[..n], r);
    }
  }

  /** The packets that have a handler. */
  function Selected(read: seq<Incoming>, table: set<uint16>): seq<Incoming> {
    if read == [] then []
    else
      var before := Selected(read[..|read| - 1], table);
      if read[|read| - 1].operation in table then before + [read[|read| - 1]] else before
  }

  lemma SelectedSnoc(read: seq<Incoming>, p: Incoming, table: set<uint16>)
    ensures Selected(read + [p], table) ==
      if p.operation in table then Selected(read, table) + [p] else Selected(read, table)
  {
    assert (read + [p])[..|read|] == read;
  }

  lemma SelectedNone(table: set<uint16>)
    ensures Selected([], table) == [] && Right([]) == [] && Wrong([]) == multiset{}
  {
  }

  /** There is always another packet object to be had. */
  lemma Unused(ids: set<Pid>) returns (x: Pid)
    ensures x !in ids && forall y :: y in ids ==> y < x
  {
    x := 0;
    if y :| y in ids {
      var z := Unused(ids - {y});
      x := if z <= y then y + 1 else z;
      assert forall u :: u in ids ==> u == y || u in ids - {y};
    }
  }

  /** What the loop runs against: the connection, the handlers, the pool and the other
      goroutines. Each call demands that the loop owns the packets it passes on, so that
      no packet is used, or put back, after it was put back. */
  class World {
    var incoming: seq<uint16>             // operations of the packets still to come
    var pool: set<Pid>
    var mine: set<Pid>                    // packets in the loop's hands
    var connClosed: bool
    // histories
    var taken: multiset<Pid>              // packets that came into the loop's hands
    var put: multiset<Pid>                // packets the loop put back
    var dropped: multiset<Pid>            // fresh answers that failed the length test
    var read: seq<Incoming>
    var handled: seq<Incoming>
    var replies: seq<Reply>               // what handlers returned
    var written: seq<Outgoing>            // what was given to WritePacket
    var readFailed: bool
    var asked: bool                       // a handler asked to close
    var writeFailed: bool
    var onClosed: seq<Option<Cause>>

    ghost predicate Valid()
      reads this
    {
      mine !! pool && put + dropped + multiset(mine) == taken
    }

    ghost predicate Fresh()
      reads this
    {
      && mine == {} && !connClosed && taken == put == dropped == multiset{}
      && read == handled == [] && replies == [] && written == [] && !readFailed && !asked && !writeFailed && onClosed == []
    }

    /** Whatever came into the loop's hands was put back, as often as it came, but for the
        fresh answers that were dropped. */
    ghost predicate Balance()
      reads this`put, this`dropped, this`taken
    {
      put + dropped == taken
    }

    constructor (operations: seq<uint16>)
      ensures Valid() && Fresh() && incoming == operations
    {
      incoming, pool, mine, connClosed := operations, {}, {}, false;
      taken, put, dropped, read, handled := multiset{}, multiset{}, multiset{}, [], [];
      replies, written := [], [];
      readFailed, asked, writeFailed, onClosed := false, false, false, [];
    }

    /** Other goroutines use the pool too, but have no packet of the loop's to put. */
    method Others()
      requires Valid()
      modifies this`pool
      ensures Valid()
    {
      var p: set<Pid> := *;
      pool := p - mine;
    }

    /** packet.Get: some packet that is not in the loop's hands. */
    method Available() returns (x: Pid)
      ensures x !in mine
    {
      var z := Unused(mine);
      x :| x !in mine;
    }

    method ReadPacket() returns (p: Option<Incoming>)
      requires Valid() && !asked && !writeFailed
      modifies this`incoming, this`pool, this`mine, this`taken, this`read, this`readFailed
      ensures Valid() && readFailed == (old(readFailed) || p == None)
      ensures p == None ==> incoming == old(incoming) && read == old(read) && mine == old(mine) && taken == old(taken)
      ensures p.Some? ==>
        && old(incoming) != [] && incoming == old(incoming)[1..] && p.value.operation == old(incoming)[0]
        && read == old(read) + [p.value] && taken == old(taken) + multiset{p.value.id}
        && p.value.id !in old(mine) && mine == old(mine) + {p.value.id}
    {
      Others();
      var failed: bool := *;
      if failed || incoming == [] {
        readFailed := true;
        return None;
      }
      var x := Available();
      Hand(x);
      p := Some(Incoming(x, incoming[0]));
      read := read + [p.value];
      incoming := incoming[1..];
    }

    /** handlerFunc: answers with nothing, its input or a fresh packet, fit or not. */
    method Handle(p: Incoming) returns (outgoing: Option<Outgoing>, action: Action)
      requires Valid() && !asked && !writeFailed && p.id in mine
      modifies this`pool, this`mine, this`taken, this`handled, this`replies, this`asked
      ensures Valid() && handled == old(handled) + [p] && asked == (action == CLOSE)
      ensures replies == (if outgoing.Some? then old(replies) + [Reply(p.id, outgoing.value)] else old(replies))
      ensures outgoing.Some? && outgoing.value.id != p.id ==>
        outgoing.value.id !in old(mine) && mine == old(mine) + {outgoing.value.id}
      ensures outgoing.None? || outgoing.value.id == p.id ==> mine == old(mine)
    {
      Others();
      handled := handled + [p];
      action := *;
      asked := action == CLOSE;
      outgoing := *;
      if outgoing.Some? && outgoing.value.id != p.id {
        if outgoing.value.id in mine {
          var x := Available();
          outgoing := Some(outgoing.value.(id := x));
        }
        Hand(outgoing.value.id);
      }
      if outgoing.Some? {
        replies := replies + [Reply(p.id, outgoing.value)];
      }
    }

    /** A packet comes into the loop's hands. */
    method Hand(x: Pid)
      requires Valid() && x !in mine
      modifies this`pool, this`mine, this`taken
      ensures Valid() && taken == old(taken) + multiset{x} && mine == old(mine) + {x}
    {
      pool, mine, taken := pool - {x}, mine + {x}, taken + multiset{x};
    }

    /** The loop forgets a packet. */
    method Drop(x: Pid)
      requires Valid() && x in mine
      modifies this`mine, this`dropped
      ensures Valid() && mine == old(mine) - {x} && dropped == old(dropped) + multiset{x}
    {
      mine, dropped := mine - {x}, dropped + multiset{x};
    }

    method WritePacket(o: Outgoing) returns (ok: bool)
      requires Valid() && !writeFailed && o.id in mine
      modifies this`pool, this`written, this`writeFailed
      ensures Valid() && (ok ==> Writable(o)) && writeFailed == !ok && written == old(written) + [o]
    {
      Others();
      ok := *;
      ok := ok && Writable(o);
      written := written + [o];
      writeFailed := !ok;
    }

    method Put(x: Pid)
      requires Valid() && x in mine
      modifies this`pool, this`mine, this`put
      ensures Valid() && mine == old(mine) - {x} && put == old(put) + multiset{x} && x in pool
    {
      pool, mine, put := pool + {x}, mine - {x}, put + multiset{x};
    }

    method CloseConn()
      requires Valid()
      modifies this`connClosed
      ensures Valid() && connClosed
    {
      connClosed := true;
    }

    method OnClosed(cause: Option<Cause>)
      requires Valid() && connClosed
      modifies this`onClosed
      ensures Valid() && onClosed == old(onClosed) + [cause]
    {
      onClosed := onClosed + [cause];
    }
  }

  /** Every answer of the right length was given to WritePacket, in order, and no other;
      what was dropped is exactly the fresh answers of the wrong length; and unless a write
      has failed, everything written was fit for the wire. */
  ghost predicate Answered(w: World)
    reads w
  {
    && w.written == Right(w.replies) && w.dropped == Wrong(w.replies)
    && (!w.writeFailed ==> forall o :: o in w.written ==> o.operation > RESERVED9 && o.contentLength as nat == o.size)
  }

  /** Between two packets the loop owns nothing, every packet that has a handler was
      handled, in order, and every answer dealt with. */
  ghost predicate Settled(w: World, table: set<uint16>)
    reads w
  {
    w.Valid() && w.mine == {} && w.handled == Selected(w.read, table) && Answered(w)
  }

  /** One packet has been read and is in hand. */
  ghost predicate InHand(w: World, p: Incoming, table: set<uint16>)
    reads w
  {
    && w.Valid() && w.mine == {p.id} && Answered(w)
    && Selected(w.read, table) == if p.operation in table then w.handled + [p] else w.handled
  }

  /** ReadPacket between two packets. */
  method ReadNext(w: World, ghost table: set<uint16>) returns (p: Option<Incoming>)
    requires Settled(w, table) && !w.asked && !w.writeFailed
    modifies w`incoming, w`pool, w`mine, w`taken, w`read, w`readFailed
    ensures w.readFailed == (old(w.readFailed) || p == None)
    ensures p == None ==> Settled(w, table)
    ensures p.Some? ==> InHand(w, p.value, table) && |w.incoming| < |old(w.incoming)|
  {
    hide World.Valid, Selected;
    p := w.ReadPacket();
    if p.Some? {
      SelectedSnoc(old(w.read), p.value, table);
    }
  }

  /** What the loop owns when the handler of packet p has answered. */
  function Owned(p: Pid, outgoing: Option<Outgoing>): set<Pid> {
    if outgoing.Some? && outgoing.value.id != p then {p} + {outgoing.value.id} else {p}
  }

  /** Writing the answer if it is fit, and putting back the packets the loop owns; an unfit
      fresh answer is forgotten. */
  method Respond(w: World, p: Pid, outgoing: Option<Outgoing>) returns (ok: bool)
    requires w.Valid() && !w.writeFailed && w.mine == Owned(p, outgoing)
    modifies w`pool, w`mine, w`put, w`dropped, w`written, w`writeFailed
    ensures w.Valid() && w.mine == {} && w.writeFailed == !ok
    ensures outgoing.Some? && Fits(outgoing.value) ==>
      w.written == old(w.written) + [outgoing.value] && w.dropped == old(w.dropped) && (ok ==> Writable(outgoing.value))
    ensures outgoing.Some? && !Fits(outgoing.value) ==> ok && w.written == old(w.written)
    ensures outgoing.Some? && !Fits(outgoing.value) ==>
      w.dropped == (if outgoing.value.id != p then old(w.dropped) + multiset{outgoing.value.id} else old(w.dropped))
    ensures outgoing.None? ==> ok && w.written == old(w.written) && w.dropped == old(w.dropped)
  {
    hide World.Valid, Writable, Fits;
    ok := true;
    if outgoing.Some? && Fits(outgoing.value) {
      ok := w.WritePacket(outgoing.value);
      if outgoing.value.id != p {
        w.Put(outgoing.value.id);
        assert w.mine == {p};
      }
      w.Put(p);
    } else {
      w.Put(p);
      if outgoing.Some? && outgoing.value.id != p {
        assert w.mine == {outgoing.value.id};
        w.Drop(outgoing.value.id);
      }
    }
  }

  lemma Balanced(w: World, table: set<uint16>)
    requires Settled(w, table)
    ensures w.Balance()
  {
    assert multiset(w.mine) == multiset{};
  }

  /** What both loops do with the packet in hand: run its handler, write the answer and
      put back what they own. */
  method Process(w: World, p: Incoming, table: set<uint16>) returns (ok: bool, action: Action)
    requires InHand(w, p, table) && !w.asked && !w.writeFailed
    modifies w`pool, w`mine, w`taken, w`put, w`dropped, w`handled, w`replies, w`written, w`asked, w`writeFailed
    ensures Settled(w, table) && Answered(w)
    ensures w.writeFailed == !ok && w.asked == (action == CLOSE)
  {
    hide World.Valid, Selected, Fits, Right, Wrong;
    ok, action := true, NONE;
    if p.operation in table {
      var outgoing: Option<Outgoing>;
      outgoing, action := w.Handle(p);
      if outgoing.Some? {
        RightSnoc(old(w.replies), Reply(p.id, outgoing.value));
      }
      ok := Respond(w, p.id, outgoing);
    } else {
      w.Put(p.id);
      assert w.mine == {};
    }
  }

  /** Closing the connection and telling the server, on every way out. */
  method Finish(w: World, cause: Option<Cause>, ghost table: set<uint16>)
    requires Settled(w, table)
    modifies w`connClosed, w`onClosed
    ensures Settled(w, table) && w.Balance() && w.connClosed && w.onClosed == old(w.onClosed) + [cause]
  {
    hide World.Valid, World.Balance, Selected;
    w.CloseConn();
    w.OnClosed(cause);
    Balanced(w, table);
  }

  /** Server.handleSinglePacket. Whatever the connection and the handlers do, onClosed is
      called exactly once, after the connection was closed, with the cause; every packet
      that was read, and every fresh answer fit to be written, is put back exactly once;
      the packets that have a handler are handled in the order they arrived, and none is
      read after a failed write or a CLOSE. */
  method HandleSinglePacket(w: World, table: set<uint16>)
    requires w.Fresh() && w.Valid()
    modifies w
    ensures Settled(w, table) && Answered(w) && w.Balance()
    ensures w.connClosed && |w.onClosed| == 1
    ensures w.readFailed || w.writeFailed || w.asked
    ensures w.onClosed[0] == (if w.writeFailed then Some(WriteError) else if w.asked then None else Some(ReadError))
  {
    SelectedNone(table);
    hide World.Valid, World.Balance, Selected, Fits, Right, Wrong;
    var p := ReadNext(w, table);
    if p.None? {
      Finish(w, Some(ReadError), table);
      return;
    }
    while true
      invariant p.Some? && InHand(w, p.value, table)
      invariant !w.asked && !w.writeFailed && w.onClosed == []
      decreases |w.incoming|
    {
      var ok, action := Process(w, p.value, table);
      if !ok {
        Finish(w, Some(WriteError), table);
        return;
      }
      if action == CLOSE {
        Finish(w, None, table);
        return;
      }
      p := ReadNext(w, table);
      if p.None? {
        Finish(w, Some(ReadError), table);
        return;
      }
    }
  }

  /** The client's closed flag and wait group. */
  class Client {
    var closed: bool
    var raced: bool            // another goroutine closed the client
    var wg: nat

    /** c.closed.Load(): Client.Close or Client.Raw may have won in the meantime. */
    method Closed() returns (c: bool)
      modifies this`closed, this`raced
      ensures c == closed && closed == (old(closed) || raced) && (old(raced) ==> raced)
    {
      var b: bool := *;
      raced := raced || b;
      closed := closed || raced;
      c := closed;
    }

    method Done()
      requires wg > 0
      modifies this`wg
      ensures wg == old(wg) - 1
    {
      wg := wg - 1;
    }

    /** wg.Wait: returns when the others have called Done. `own` is how often the calling
        goroutine itself is counted: for that it waits forever. */
    method Wait(own: nat) returns (stuck: bool)
      requires own <= wg
      modifies this`wg
      ensures wg == own && (stuck <==> own > 0)
    {
      wg := own;
      stuck := own > 0;
    }

    /** Client.Close, by any goroutine: closing the connection may fail, and another closer
        may come first. The winner returns without an error only when the dispatch loop
        is done; if it is itself that loop, and still counted, the call never returns. */
    method Close(w: World, own: nat) returns (ok: bool, stuck: bool)
      requires own <= wg && w.Valid()
      modifies this`closed, this`raced, this`wg, w`connClosed
      ensures w.Valid() && closed && w.connClosed && own <= wg <= old(wg)
      ensures ok && !old(closed) && !raced ==> wg == own
      ensures stuck ==> own > 0
      ensures ok && !old(closed) && !raced && own > 0 ==> stuck
    {
      ok := *;
      stuck := false;
      var lost := Closed();
      closed := true;
      w.CloseConn();
      if !lost && ok {
        stuck := Wait(own);
      }
    }
  }

  /** Counting itself out and closing the client, on the loop's ways out. */
  method Leave(c: Client, w: World, ghost table: set<uint16>) returns (stuck: bool)
    requires Settled(w, table) && c.wg == 1
    modifies c, w`connClosed
    ensures Settled(w, table) && Answered(w) && w.Balance()
    ensures c.wg == 0 && c.closed && w.connClosed && !stuck
  {
    hide World.Valid, World.Balance, Selected, Right, Wrong;
    c.Done();
    var ok;
    ok, stuck := c.Close(w, 0);
    Balanced(w, table);
  }

  /** Client.handleConn. The loop counts itself out of the wait group exactly once, and
      before it closes the client, so that it never waits for itself; packets are owned,
      handled and put back as in the server. The client is left closed, and unless
      somebody else closed it the connection too. */
  method HandleConn(c: Client, w: World, table: set<uint16>) returns (stuck: bool)
    requires w.Fresh() && w.Valid() && c.wg == 1 && (c.closed ==> c.raced)
    modifies c, w
    ensures Settled(w, table) && Answered(w) && w.Balance()
    ensures c.wg == 0 && c.closed && w.onClosed == [] && !stuck
    ensures w.readFailed || w.writeFailed || w.asked ==> w.connClosed
    ensures w.readFailed || w.writeFailed || w.asked || c.raced
  {
    SelectedNone(table);
    hide World.Valid, World.Balance, Selected, Fits, Right, Wrong;
    stuck := false;
    while true
      invariant Settled(w, table) && !stuck
      invariant !w.readFailed && !w.asked && !w.writeFailed && w.onClosed == []
      invariant c.wg == 1 && (c.closed ==> c.raced)
      decreases |w.incoming|
    {
      var closed := c.Closed();
      if closed {
        c.Done();
        Balanced(w, table);
        return;
      }
      var p := ReadNext(w, table);
      if p.None? {
        stuck := Leave(c, w, table);
        return;
      }
      var sent, action := Process(w, p.value, table);
      if !sent || action == CLOSE {
        stuck := Leave(c, w, table);
        return;
      }
    }
  }
}
