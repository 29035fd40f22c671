/** Packet ownership through the read loops, the incoming queues, the dispatchers, the
    handlers and the pool. */
module DispatchPackets {
  import opened Options
  import opened Dispatch
  import DispatchControl

  /** The dispatched packet is still the handler's. */
  predicate Holds(at: HandlerAt) {
    at.Granted? || at.Ready? || at.Running? || at.Testing? || at.Writing? || at.PutOut? || at.PutIn?
  }

  /** What a handler goroutine has in its hands: its packet until that was put back, and
      the packet it answers with. */
  predicate InHands(r: Handler, x: Pid) {
    (Holds(r.at) && x == r.packet) || (r.out.Some? && x == r.out.value)
  }

  /** Packet x can be found at place p. */
  predicate Found(s: State, x: Pid, p: Place) {
    match p
    case InPool => x in s.mem.pool
    case WithReader(c) => c in s.mem.readers && s.mem.readers[c].Has? && s.mem.readers[c].packet == x
    case InQueue(c) => c in s.mem.queues && x in s.mem.queues[c]
    case InStream => x in s.mem.streamed
    case WithDispatcher(c) => c in s.ctl.conns && s.ctl.conns[c].at == Holding(x)
    case WithHandler(h) => h in s.ctl.handlers && InHands(s.ctl.handlers[h], x)
    case Dropped => false
  }

  predicate At(m: Packets, x: Pid, p: Place) {
    x in m.place && m.place[x] == p
  }

  // The invariant

  /** The pool holds each of its packets once, and exactly those that are nowhere else;
      and so for the streams. */
  ghost predicate SharedOk(m: Packets) {
    && (forall x :: x in m.pool ==> m.pool[x] == 1 && At(m, x, InPool))
    && (forall x :: At(m, x, InPool) ==> x in m.pool)
    && (forall x :: x in m.streamed <==> At(m, x, InStream))
  }

  /** A queue holds what has arrived and was not fetched, in order, and nothing twice. */
  predicate QueueOk(m: Packets, c: Cid)
    requires c in m.queues
  {
    var q := m.queues[c];
    && c in m.arrived && c in m.fetched && m.arrived[c] == m.fetched[c] + q
    && (forall i :: 0 <= i < |q| ==> At(m, q[i], InQueue(c)))
    && (forall i, j :: 0 <= i < j < |q| ==> q[i] != q[j])
  }

  predicate ReaderOk(m: Packets, c: Cid)
    requires c in m.readers
  {
    m.readers[c].Has? ==> At(m, m.readers[c].packet, WithReader(c))
  }

  predicate DispatcherOk(m: Packets, c: Cid, at: DispatcherAt) {
    at.Holding? ==> At(m, at.packet, WithDispatcher(c))
  }

  /** A handler has its packet until it has put it back, once; a fresh outgoing packet
      is the handler's too until it is put back or given up. */
  predicate HandlerOk(m: Packets, h: Hid, r: Handler) {
    && (if Holds(r.at) then r.puts == 0 && At(m, r.packet, WithHandler(h)) else r.puts == 1)
    && (r.out.Some? && r.out.value != r.packet ==> At(m, r.out.value, WithHandler(h)))
    && (r.out.Some? <==> r.at.Testing? || r.at.Writing? || r.at.PutOut?)
    && (r.at.Writing? || r.at.PutOut? ==> r.fits)
  }

  ghost predicate ConnsOk(s: State) {
    && (forall c :: c in s.mem.queues ==> QueueOk(s.mem, c))
    && (forall c :: c in s.mem.readers ==> ReaderOk(s.mem, c))
    && (forall c :: c in s.ctl.conns ==> DispatcherOk(s.mem, c, s.ctl.conns[c].at))
  }

  /** Nothing gets lost unseen: a packet object that was not given up can be found. */
  ghost predicate Placed(s: State) {
    forall x :: x in s.mem.place && s.mem.place[x] != Dropped ==> Found(s, x, s.mem.place[x])
  }

  ghost predicate PacketsOk(s: State) {
    && SharedOk(s.mem)
    && ConnsOk(s)
    && (forall h :: h in s.ctl.handlers ==> HandlerOk(s.mem, h, s.ctl.handlers[h]))
    && Placed(s)
  }

  /** Where a packet is found is where it is. */
  lemma FoundWhere(s: State, x: Pid, p: Place)
    requires PacketsOk(s) && Found(s, x, p)
    ensures At(s.mem, x, p)
  {
    hide Placed;
    match p
    case InPool =>
    case WithReader(c) => assert ReaderOk(s.mem, c);
    case InQueue(c) => assert QueueOk(s.mem, c);
    case InStream =>
    case WithDispatcher(c) => assert DispatcherOk(s.mem, c, s.ctl.conns[c].at);
    case WithHandler(h) => assert HandlerOk(s.mem, h, s.ctl.handlers[h]);
  }

  // The pool

  predicate Private(m: Packets, x: Pid) {
    x in m.place && m.place[x] != InPool && m.place[x] != InStream
  }

  lemma PutShared(m: Packets, x: Pid)
    requires SharedOk(m) && Private(m, x)
    ensures SharedOk(Put(m, x))
  {
  }

  lemma GetShared(m: Packets, x: Pid, p: Place)
    requires SharedOk(m) && Available(m, x) && p != InPool && p != InStream
    ensures SharedOk(Get(m, x, p))
    ensures x in m.place ==> m.place[x] == InPool
  {
  }

  lemma MoveShared(m: Packets, x: Pid, p: Place)
    requires SharedOk(m) && Private(m, x) && p != InPool && p != InStream
    ensures SharedOk(Dispatch.Move(m, x, p))
  {
  }

  lemma StreamShared(m: Packets, x: Pid)
    requires SharedOk(m) && Private(m, x)
    ensures SharedOk(Dispatch.Move(m, x, InStream).(streamed := m.streamed + {x}))
  {
  }

  // A step that moves the packets xs and concerns the handlers hs, the dispatchers cs,
  // and the read loops and queues qs

  predicate Concerned(p: Place, hs: set<Hid>, cs: set<Cid>, qs: set<Cid>) {
    match p
    case WithHandler(h) => h in hs
    case WithDispatcher(c) => c in cs
    case InQueue(c) => c in qs
    case WithReader(c) => c in qs
    case _ => false
  }

  ghost predicate FramePlaces(s: State, s': State, xs: set<Pid>, hs: set<Hid>, cs: set<Cid>, qs: set<Cid>) {
    && (forall y :: y !in xs ==> (y in s.mem.place <==> y in s'.mem.place))
    && (forall y :: y !in xs && y in s.mem.place && y in s'.mem.place ==> s'.mem.place[y] == s.mem.place[y])
    && (forall y :: y in xs && y in s.mem.place ==>
         s.mem.place[y] == InPool || Concerned(s.mem.place[y], hs, cs, qs))
  }

  lemma MovedOne(s: State, s': State, x: Pid, hs: set<Hid>, cs: set<Cid>, qs: set<Cid>)
    requires x in s'.mem.place && s'.mem.place == s.mem.place[x := s'.mem.place[x]]
    requires x in s.mem.place ==> s.mem.place[x] == InPool || Concerned(s.mem.place[x], hs, cs, qs)
    ensures FramePlaces(s, s', {x}, hs, cs, qs)
  {
  }

  ghost predicate FrameControl(s: State, s': State, hs: set<Hid>, cs: set<Cid>) {
    && (forall g :: g !in hs ==> (g in s.ctl.handlers <==> g in s'.ctl.handlers))
    && (forall g :: g !in hs && g in s.ctl.handlers && g in s'.ctl.handlers ==> s'.ctl.handlers[g] == s.ctl.handlers[g])
    && (forall c :: c !in cs ==> (c in s.ctl.conns <==> c in s'.ctl.conns))
    && (forall c :: c !in cs && c in s.ctl.conns && c in s'.ctl.conns ==> s'.ctl.conns[c].at == s.ctl.conns[c].at)
  }

  ghost predicate FrameMemory(m: Packets, m': Packets, qs: set<Cid>) {
    && (forall c :: c !in qs && c in m.arrived ==> c in m'.arrived && m'.arrived[c] == m.arrived[c])
    && (forall c :: c !in qs && c in m.fetched ==> c in m'.fetched && m'.fetched[c] == m.fetched[c])
    && (forall c :: c !in qs ==> (c in m.queues <==> c in m'.queues))
    && (forall c :: c !in qs && c in m.queues && c in m'.queues ==> m'.queues[c] == m.queues[c])
    && (forall c :: c !in qs ==> (c in m.readers <==> c in m'.readers))
    && (forall c :: c !in qs && c in m.readers && c in m'.readers ==> m'.readers[c] == m.readers[c])
  }

  lemma OneConn(s: State, s': State, c: Cid)
    requires s'.ctl.handlers == s.ctl.handlers && c in s'.ctl.conns && s'.ctl.conns == s.ctl.conns[c := s'.ctl.conns[c]]
    ensures FrameControl(s, s', {}, {c})
  {
  }

  lemma SamePlaces(s: State, s': State, hs: set<Hid>, cs: set<Cid>, qs: set<Cid>)
    requires s'.mem.place == s.mem.place
    ensures FramePlaces(s, s', {}, hs, cs, qs)
  {
  }

  lemma OneHandler(s: State, s': State, h: Hid)
    requires s'.ctl.conns == s.ctl.conns && h in s'.ctl.handlers && s'.ctl.handlers == s.ctl.handlers[h := s'.ctl.handlers[h]]
    ensures FrameControl(s, s', {h}, {})
  {
  }

  lemma SameMemory(m: Packets, m': Packets)
    requires m'.queues == m.queues && m'.readers == m.readers && m'.arrived == m.arrived && m'.fetched == m.fetched
    ensures FrameMemory(m, m', {})
  {
  }

  /** The packets the step is about can be found afterwards, or were given up. */
  ghost predicate Accounted(s: State, xs: set<Pid>, hs: set<Hid>, cs: set<Cid>, qs: set<Cid>) {
    forall y :: y in s.mem.place && (y in xs || Concerned(s.mem.place[y], hs, cs, qs)) && s.mem.place[y] != Dropped ==>
      Found(s, y, s.mem.place[y])
  }

  lemma PlacedKept(s: State, s': State, xs: set<Pid>, hs: set<Hid>, cs: set<Cid>, qs: set<Cid>)
    requires Placed(s) && SharedOk(s'.mem) && Accounted(s', xs, hs, cs, qs)
    requires FramePlaces(s, s', xs, hs, cs, qs) && FrameControl(s, s', hs, cs) && FrameMemory(s.mem, s'.mem, qs)
    ensures Placed(s')
  {
    forall y | y in s'.mem.place && s'.mem.place[y] != Dropped
      ensures Found(s', y, s'.mem.place[y])
    {
      var p := s'.mem.place[y];
      if y !in xs && !Concerned(p, hs, cs, qs) {
        assert Found(s, y, p);
      }
    }
  }

  lemma ConnsKept(s: State, s': State, xs: set<Pid>, hs: set<Hid>, cs: set<Cid>, qs: set<Cid>)
    requires ConnsOk(s)
    requires FramePlaces(s, s', xs, hs, cs, qs) && FrameControl(s, s', hs, cs) && FrameMemory(s.mem, s'.mem, qs)
    requires forall c :: c in qs && c in s'.mem.queues ==> QueueOk(s'.mem, c)
    requires forall c :: c in qs && c in s'.mem.readers ==> ReaderOk(s'.mem, c)
    requires forall c :: c in cs && c in s'.ctl.conns ==> DispatcherOk(s'.mem, c, s'.ctl.conns[c].at)
    ensures ConnsOk(s')
  {
    forall c | c in s'.mem.queues && c !in qs
      ensures QueueOk(s'.mem, c)
    {
      assert QueueOk(s.mem, c);
      QueueFrame(s, s', xs, hs, cs, qs, c);
    }
    forall c | c in s'.mem.readers && c !in qs
      ensures ReaderOk(s'.mem, c)
    {
      assert ReaderOk(s.mem, c);
    }
    forall c | c in s'.ctl.conns && c !in cs
      ensures DispatcherOk(s'.mem, c, s'.ctl.conns[c].at)
    {
      assert DispatcherOk(s.mem, c, s.ctl.conns[c].at);
    }
  }

  lemma QueueFrame(s: State, s': State, xs: set<Pid>, hs: set<Hid>, cs: set<Cid>, qs: set<Cid>, c: Cid)
    requires FramePlaces(s, s', xs, hs, cs, qs) && FrameMemory(s.mem, s'.mem, qs)
    requires c in s.mem.queues && c !in qs && c in s'.mem.queues && QueueOk(s.mem, c)
    ensures QueueOk(s'.mem, c)
  {
  }

  lemma FrameKept(s: State, s': State, xs: set<Pid>, hs: set<Hid>, cs: set<Cid>, qs: set<Cid>)
    requires PacketsOk(s) && SharedOk(s'.mem) && Accounted(s', xs, hs, cs, qs)
    requires FramePlaces(s, s', xs, hs, cs, qs) && FrameControl(s, s', hs, cs) && FrameMemory(s.mem, s'.mem, qs)
    requires forall c :: c in qs && c in s'.mem.queues ==> QueueOk(s'.mem, c)
    requires forall c :: c in qs && c in s'.mem.readers ==> ReaderOk(s'.mem, c)
    requires forall c :: c in cs && c in s'.ctl.conns ==> DispatcherOk(s'.mem, c, s'.ctl.conns[c].at)
    requires forall h :: h in hs && h in s'.ctl.handlers ==> HandlerOk(s'.mem, h, s'.ctl.handlers[h])
    ensures PacketsOk(s')
  {
    hide SharedOk, Accounted, QueueOk, ReaderOk, DispatcherOk;
    PlacedKept(s, s', xs, hs, cs, qs);
    ConnsKept(s, s', xs, hs, cs, qs);
    hide ConnsOk, Placed;
    forall h | h in s'.ctl.handlers && h !in hs
      ensures HandlerOk(s'.mem, h, s'.ctl.handlers[h])
    {
      assert HandlerOk(s.mem, h, s.ctl.handlers[h]);
    }
  }

  // The environment

  lemma AcceptKept(s: State, s': State, c: Cid)
    requires PacketsOk(s) && AcceptStep(s, s', c)
    ensures PacketsOk(s')
  {
    hide SharedOk, HandlerOk;
    QueueShared(s.mem, s'.mem);
    NothingYet(s, c);
    assert Accounted(s', {}, {}, {c}, {c});
    NewMemory(s.mem, s'.mem, c);
    assert QueueOk(s'.mem, c) && ReaderOk(s'.mem, c);
    OneConn(s, s', c);
    SamePlaces(s, s', {}, {c}, {c});
    hide Placed, Accounted, FrameMemory, FrameControl, FramePlaces, QueueOk, ReaderOk;
    FrameKept(s, s', {}, {}, {c}, {c});
  }

  lemma NewMemory(m: Packets, m': Packets, c: Cid)
    requires m'.queues == m.queues[c := []] && m'.readers == m.readers[c := Between]
    requires m'.arrived == m.arrived[c := []] && m'.fetched == m.fetched[c := []]
    ensures FrameMemory(m, m', {c})
  {
  }

  lemma NothingYet(s: State, c: Cid)
    requires Placed(s) && c !in s.ctl.conns && c !in s.mem.queues && c !in s.mem.readers
    ensures forall y :: y in s.mem.place ==> !Concerned(s.mem.place[y], {}, {c}, {c})
  {
    forall y | y in s.mem.place
      ensures !Concerned(s.mem.place[y], {}, {c}, {c})
    {
      assert s.mem.place[y] == Dropped || Found(s, y, s.mem.place[y]);
    }
  }

  // Read loops

  lemma ReaderShared(m: Packets, c: Cid, r: Reader)
    ensures SharedOk(SetReader(m, c, r)) <==> SharedOk(m)
  {
  }

  lemma FetchKept(s: State, s': State, c: Cid, x: Pid, f: Frame)
    requires PacketsOk(s) && FetchStep(s, s', c, x, f)
    ensures PacketsOk(s')
  {
    hide SharedOk, HandlerOk, DispatcherOk, PacketsOk, Available;
    if s' == s.(mem := SetReader(s.mem, c, Stopped)) {
      StopKept(s, s', c);
    } else {
      TakeKept(s, s', c, x, f);
    }
  }

  lemma StopKept(s: State, s': State, c: Cid)
    requires PacketsOk(s) && c in s.mem.readers && s.mem.readers[c] == Between
    requires s' == s.(mem := SetReader(s.mem, c, Stopped))
    ensures PacketsOk(s')
  {
    hide SharedOk, HandlerOk, DispatcherOk;
    ReaderShared(s.mem, c, Stopped);
    StillQueued(s, s', c, {});
    if c in s'.mem.queues {
      assert QueueOk(s.mem, c);
    }
    hide Placed, Accounted;
    FrameKept(s, s', {}, {}, {}, {c});
  }

  lemma TakeKept(s: State, s': State, c: Cid, x: Pid, f: Frame)
    requires PacketsOk(s) && c in s.mem.readers && s.mem.readers[c] == Between && Available(s.mem, x)
    requires s' == s.(mem := SetReader(Get(s.mem, x, WithReader(c)), c, Has(x, f)))
    ensures PacketsOk(s')
  {
    GetShared(s.mem, x, WithReader(c));
    hide SharedOk, HandlerOk, DispatcherOk, Available;
    ReaderShared(Get(s.mem, x, WithReader(c)), c, Has(x, f));
    TakeAccounted(s, s', c, x, f);
    MovedOne(s, s', x, {}, {}, {c});
    hide Placed, Accounted, FramePlaces;
    if c in s'.mem.queues {
      assert QueueOk(s.mem, c);
      QueueElsewhere(s.mem, s'.mem, c, x);
    }
    hide QueueOk;
    FrameKept(s, s', {x}, {}, {}, {c});
  }

  lemma TakeAccounted(s: State, s': State, c: Cid, x: Pid, f: Frame)
    requires Placed(s) && c in s.mem.readers && s.mem.readers[c] == Between
    requires s' == s.(mem := SetReader(Get(s.mem, x, WithReader(c)), c, Has(x, f)))
    ensures Accounted(s', {x}, {}, {}, {c})
  {
    hide Accounted, Placed;
    StillQueued(s, s', c, {x});
  }

  /** A queue is not affected by a packet that was not in it. */
  lemma QueueElsewhere(m: Packets, m': Packets, c: Cid, x: Pid)
    requires c in m.queues && QueueOk(m, c) && c in m'.queues && m'.queues[c] == m.queues[c]
    requires m'.arrived == m.arrived && m'.fetched == m.fetched
    requires x in m'.place && m'.place == m.place[x := m'.place[x]] && !At(m, x, InQueue(c))
    ensures QueueOk(m', c)
  {
  }

  /** After a step of the read loop of c everything but what it has in hand is where it
      was. */
  lemma StillQueued(s: State, s': State, c: Cid, xs: set<Pid>)
    requires Placed(s) && s'.ctl == s.ctl
    requires forall y :: y in s'.mem.place && y !in xs ==> y in s.mem.place && s'.mem.place[y] == s.mem.place[y]
    requires forall y :: y in xs && y in s'.mem.place && s'.mem.place[y] != Dropped ==> Found(s', y, s'.mem.place[y])
    requires c in s.mem.queues ==> c in s'.mem.queues && s.mem.queues[c] <= s'.mem.queues[c]
    requires c in s.mem.readers && (s.mem.readers[c].Has? ==> s.mem.readers[c].packet in xs)
    ensures Accounted(s', xs, {}, {}, {c})
  {
    forall y | y in s'.mem.place && Concerned(s'.mem.place[y], {}, {}, {c}) && y !in xs
      ensures Found(s', y, s'.mem.place[y])
    {
      assert Found(s, y, s.mem.place[y]);
    }
  }

  /** The memory after the read loop of c has handed on x. */
  ghost predicate HandedOn(m: Packets, m': Packets, c: Cid, x: Pid) {
    && x in m'.place && m'.place == m.place[x := m'.place[x]]
    && c in m'.readers && !m'.readers[c].Has? && m'.readers == m.readers[c := m'.readers[c]]
    && c in m.queues && c in m'.queues && m'.queues == m.queues[c := m'.queues[c]]
    && c in m.arrived && c in m'.arrived && m'.arrived == m.arrived[c := m'.arrived[c]] && m'.fetched == m.fetched
    && (|| (m'.queues[c] == m.queues[c] && m'.arrived[c] == m.arrived[c])
        || (m'.queues[c] == m.queues[c] + [x] && m'.arrived[c] == m.arrived[c] + [x] && m'.place[x] == InQueue(c)))
    && (|| m'.place[x] == Dropped || m'.place[x] == InPool || m'.place[x] == InStream
        || (m'.place[x] == InQueue(c) && x in m'.queues[c]))
  }

  lemma QueueShared(m: Packets, m': Packets)
    requires m'.pool == m.pool && m'.streamed == m.streamed && m'.place == m.place
    ensures SharedOk(m') <==> SharedOk(m)
  {
  }

  lemma HandOnShape(m: Packets, c: Cid, x: Pid, to: Place)
    requires SharedOk(m) && c in m.queues && c in m.arrived && At(m, x, WithReader(c)) && c in m.readers
    ensures HandedOn(m, HandOn(m, c, x, to), c, x) && SharedOk(HandOn(m, c, x, to))
  {
    hide SharedOk;
    ReaderShared(m, c, Between);
    ReaderShared(m, c, Stopped);
    match to
    case InPool => PutShared(SetReader(m, c, Between), x);
    case InQueue(_) =>
      MoveShared(SetReader(m, c, Between), x, InQueue(c));
      QueueShared(Dispatch.Move(SetReader(m, c, Between), x, InQueue(c)), HandOn(m, c, x, to));
    case InStream => StreamShared(SetReader(m, c, Between), x);
    case _ => MoveShared(SetReader(m, c, Stopped), x, Dropped);
  }

  lemma QueueHandedOn(m: Packets, m': Packets, c: Cid, x: Pid)
    requires c in m.queues && QueueOk(m, c) && At(m, x, WithReader(c)) && x in m'.place && HandedOn(m, m', c, x)
    ensures QueueOk(m', c)
  {
  }

  lemma HandOnKept(s: State, s': State, c: Cid)
    requires PacketsOk(s) && HandOnStep(s, s', c)
    ensures PacketsOk(s')
  {
    hide SharedOk, HandlerOk, DispatcherOk;
    assert ReaderOk(s.mem, c) && QueueOk(s.mem, c);
    var x := s.mem.readers[c].packet;
    HandOnShape(s.mem, c, x, Destination(s.mem.readers[c].frame, c));
    QueueHandedOn(s.mem, s'.mem, c, x);
    assert s'.mem.place[x] != Dropped ==> Found(s', x, s'.mem.place[x]) by {
      SharedFound(s', x);
    }
    hide HandOn, Destination, QueueOk;
    StillQueued(s, s', c, {x});
    MovedOne(s, s', x, {}, {}, {c});
    hide Placed, Accounted, FramePlaces;
    FrameKept(s, s', {x}, {}, {}, {c});
  }

  lemma SharedFound(s: State, x: Pid)
    requires SharedOk(s.mem) && x in s.mem.place
    ensures s.mem.place[x] == InPool || s.mem.place[x] == InStream ==> Found(s, x, s.mem.place[x])
  {
  }

  /** A step of a dispatcher that moves no packet. */
  lemma QuietConn(s: State, s': State, c: Cid, d': Conn)
    requires PacketsOk(s) && s'.mem == s.mem && s'.ctl.handlers == s.ctl.handlers
    requires c in s.ctl.conns && s'.ctl.conns == s.ctl.conns[c := d']
    requires d'.at == s.ctl.conns[c].at || (!d'.at.Holding? && !s.ctl.conns[c].at.Holding?)
    ensures PacketsOk(s')
  {
    assert Accounted(s', {}, {}, {c}, {}) by {
      forall y | y in s'.mem.place && Concerned(s'.mem.place[y], {}, {c}, {})
        ensures Found(s', y, s'.mem.place[y])
      {
        assert Found(s, y, s.mem.place[y]);
      }
    }
    assert DispatcherOk(s.mem, c, s.ctl.conns[c].at);
    hide SharedOk, QueueOk, HandlerOk, Accounted, ReaderOk;
    FrameKept(s, s', {}, {}, {c}, {});
  }

  // Handlers

  /** Handler h keeps in hand what it has, except for the packets xs. */
  ghost predicate KeepsHold(s: State, s': State, h: Hid, xs: set<Pid>)
    requires h in s.ctl.handlers
  {
    forall y :: y !in xs && InHands(s.ctl.handlers[h], y) ==> h in s'.ctl.handlers && InHands(s'.ctl.handlers[h], y)
  }

  lemma HoldAccounted(s: State, s': State, h: Hid, xs: set<Pid>)
    requires Placed(s) && h in s.ctl.handlers && KeepsHold(s, s', h, xs)
    requires forall y :: y in s'.mem.place && y !in xs ==> y in s.mem.place && s'.mem.place[y] == s.mem.place[y]
    requires forall y :: y in xs && y in s'.mem.place && s'.mem.place[y] != Dropped ==> Found(s', y, s'.mem.place[y])
    ensures Accounted(s', xs, {h}, {}, {})
  {
    forall y | y in s'.mem.place && Concerned(s'.mem.place[y], {h}, {}, {}) && y !in xs
      ensures Found(s', y, s'.mem.place[y])
    {
      assert Found(s, y, s.mem.place[y]);
    }
  }

  /** A step of a handler that moves no packet and does not change what it holds. */
  lemma QuietHandler(s: State, s': State, h: Hid)
    requires PacketsOk(s) && s'.mem == s.mem && h in s.ctl.handlers && KeepsHold(s, s', h, {})
    requires FrameControl(s, s', {h}, {})
    requires h in s'.ctl.handlers ==> HandlerOk(s.mem, h, s'.ctl.handlers[h])
    ensures PacketsOk(s')
  {
    hide SharedOk, HandlerOk, ConnsOk;
    HoldAccounted(s, s', h, {});
    hide Placed, Accounted, KeepsHold;
    FrameKept(s, s', {}, {h}, {}, {});
  }

  /** A handler that takes a fresh packet for its answer. */
  lemma FreshKept(s: State, s': State, h: Hid, x: Pid)
    requires PacketsOk(s) && h in s.ctl.handlers && Available(s.mem, x)
    requires s'.mem == Get(s.mem, x, WithHandler(h)) && s'.ctl.conns == s.ctl.conns
    requires h in s'.ctl.handlers && s'.ctl.handlers == s.ctl.handlers[h := s'.ctl.handlers[h]]
    requires HandlerOk(s'.mem, h, s'.ctl.handlers[h]) && InHands(s'.ctl.handlers[h], x) && KeepsHold(s, s', h, {})
    ensures PacketsOk(s')
  {
    GetShared(s.mem, x, WithHandler(h));
    hide SharedOk, HandlerOk, ConnsOk;
    HoldAccounted(s, s', h, {x});
    MovedOne(s, s', x, {h}, {}, {});
    OneHandler(s, s', h);
    SameMemory(s.mem, s'.mem);
    hide Placed, Accounted, KeepsHold, InHands, FramePlaces, FrameControl, FrameMemory;
    FrameKept(s, s', {x}, {h}, {}, {});
  }

  /** The handler's packet is neither in the pool nor new. */
  lemma NotAvailable(s: State, h: Hid)
    requires PacketsOk(s) && h in s.ctl.handlers && Holds(s.ctl.handlers[h].at)
    ensures !Available(s.mem, s.ctl.handlers[h].packet)
    ensures At(s.mem, s.ctl.handlers[h].packet, WithHandler(h)) && s.ctl.handlers[h].puts == 0
  {
    hide Placed, ConnsOk;
    assert HandlerOk(s.mem, h, s.ctl.handlers[h]);
  }

  /** What a running handler may do: keep what it holds, or take a fresh packet. */
  ghost predicate Ran(s: State, s': State, h: Hid, r: Handler, r': Handler, x: Pid) {
    && s'.ctl == SetHandler(s.ctl, h, r') && Holds(r'.at) && r'.packet == r.packet && r'.puts == r.puts && r.out == None
    && (r'.out.Some? <==> r'.at.Testing?) && !r'.at.Writing? && !r'.at.PutOut?
    && (|| (s'.mem == s.mem && (r'.out.Some? ==> r'.out.value == r.packet))
        || (Available(s.mem, x) && r'.out == Some(x) && s'.mem == Get(s.mem, x, WithHandler(h))))
  }

  lemma RunIsRan(s: State, s': State, h: Hid, x: Pid, fits: bool, asked: bool)
    requires PacketsOk(s) && h in s.ctl.handlers && RunStep(s, s', h, x, fits, asked)
    ensures h in s'.ctl.handlers && Holds(s.ctl.handlers[h].at)
    ensures Ran(s, s', h, s.ctl.handlers[h], s'.ctl.handlers[h], x)
  {
    hide SharedOk, ConnsOk, Placed, Available, Get;
    assert HandlerOk(s.mem, h, s.ctl.handlers[h]);
    hide PacketsOk;
  }

  lemma RunKept(s: State, s': State, h: Hid, x: Pid, fits: bool, asked: bool)
    requires PacketsOk(s) && h in s.ctl.handlers && RunStep(s, s', h, x, fits, asked)
    ensures PacketsOk(s')
  {
    RunIsRan(s, s', h, x, fits, asked);
    NotAvailable(s, h);
    hide RunStep, PacketsOk, Available;
    if Available(s.mem, x) && s'.ctl.handlers[h].out == Some(x) {
      FreshKept(s, s', h, x);
    } else {
      QuietHandler(s, s', h);
    }
  }

  lemma LetGoShape(m: Packets, m': Packets, x: Pid)
    requires m' == Put(m, x) || m' == Dispatch.Move(m, x, Dropped)
    ensures x in m'.place && (m'.place[x] == InPool || m'.place[x] == Dropped) && m'.place == m.place[x := m'.place[x]]
    ensures m'.queues == m.queues && m'.readers == m.readers && m'.arrived == m.arrived && m'.fetched == m.fetched
  {
  }

  /** A handler that puts back, or gives up, one of the packets it holds. */
  lemma LetGoKept(s: State, s': State, h: Hid, x: Pid)
    requires PacketsOk(s) && h in s.ctl.handlers && At(s.mem, x, WithHandler(h))
    requires s'.mem == Put(s.mem, x) || s'.mem == Dispatch.Move(s.mem, x, Dropped)
    requires s'.ctl.conns == s.ctl.conns
    requires h in s'.ctl.handlers && s'.ctl.handlers == s.ctl.handlers[h := s'.ctl.handlers[h]]
    requires HandlerOk(s'.mem, h, s'.ctl.handlers[h]) && KeepsHold(s, s', h, {x})
    ensures PacketsOk(s')
  {
    hide SharedOk, HandlerOk, ConnsOk, KeepsHold;
    PutShared(s.mem, x);
    MoveShared(s.mem, x, Dropped);
    SharedFound(s', x);
    LetGoShape(s.mem, s'.mem, x);
    hide Put, Dispatch.Move;
    HoldAccounted(s, s', h, {x});
    MovedOne(s, s', x, {h}, {}, {});
    OneHandler(s, s', h);
    SameMemory(s.mem, s'.mem);
    hide Placed, Accounted, FramePlaces, FrameControl, FrameMemory;
    FrameKept(s, s', {x}, {h}, {}, {});
  }

  lemma TestKept(s: State, s': State, h: Hid)
    requires PacketsOk(s) && h in s.ctl.handlers && TestStep(s, s', h)
    ensures PacketsOk(s')
  {
    hide SharedOk, ConnsOk, Placed;
    var r := s.ctl.handlers[h];
    assert HandlerOk(s.mem, h, r);
    hide PacketsOk;
    if !r.fits && r.out.value != r.packet {
      LetGoKept(s, s', h, r.out.value);
    } else {
      QuietHandler(s, s', h);
    }
  }

  lemma PutInKept(s: State, s': State, h: Hid)
    requires PacketsOk(s) && h in s.ctl.handlers && PutStep(s, s', h) && s.ctl.handlers[h].at.PutIn?
    ensures PacketsOk(s')
  {
    hide SharedOk, ConnsOk, Placed;
    assert HandlerOk(s.mem, h, s.ctl.handlers[h]);
    hide PacketsOk;
    LetGoKept(s, s', h, s.ctl.handlers[h].packet);
  }

  lemma PutOutKept(s: State, s': State, h: Hid)
    requires PacketsOk(s) && h in s.ctl.handlers && PutStep(s, s', h) && !s.ctl.handlers[h].at.PutIn?
    ensures PacketsOk(s')
  {
    hide SharedOk, ConnsOk, Placed;
    var r := s.ctl.handlers[h];
    assert HandlerOk(s.mem, h, r);
    hide PacketsOk;
    if r.at.PutOut? && r.out.value != r.packet {
      LetGoKept(s, s', h, r.out.value);
    } else {
      QuietHandler(s, s', h);
    }
  }

  /** A handler that has put back its packet holds nothing and may move on. */
  lemma LaterPoint(m: Packets, h: Hid, r: Handler, at: HandlerAt)
    requires HandlerOk(m, h, r) && !Holds(r.at) && !Holds(at)
    ensures HandlerOk(m, h, r.(at := at)) && forall y :: !InHands(r, y)
  {
  }

  /** Closing and ending move no packet and no dispatcher. */
  lemma SwapShape(s: State, s': State, h: Hid)
    requires h in s.ctl.handlers && s.ctl.handlers[h].conn in s.ctl.conns && HandlerCloseStep(s, s', h)
    requires s.ctl.handlers[h].at.Swap? || s.ctl.handlers[h].at.Closing?
    ensures s'.mem == s.mem && h in s'.ctl.handlers && FrameControl(s, s', {h}, {})
    ensures var r, at := s.ctl.handlers[h], s'.ctl.handlers[h].at;
      !Holds(r.at) && !Holds(at) && s'.ctl.handlers[h] == r.(at := at)
  {
  }

  lemma CancelShape(s: State, s': State, h: Hid)
    requires h in s.ctl.handlers && s.ctl.handlers[h].conn in s.ctl.conns && HandlerCloseStep(s, s', h)
    requires !s.ctl.handlers[h].at.Swap? && !s.ctl.handlers[h].at.Closing?
    ensures s'.mem == s.mem && h in s'.ctl.handlers && FrameControl(s, s', {h}, {})
    ensures var r, at := s.ctl.handlers[h], s'.ctl.handlers[h].at;
      !Holds(r.at) && !Holds(at) && s'.ctl.handlers[h] == r.(at := at)
  {
  }

  lemma CloseShape(s: State, s': State, h: Hid)
    requires h in s.ctl.handlers && s.ctl.handlers[h].conn in s.ctl.conns && HandlerCloseStep(s, s', h)
    ensures s'.mem == s.mem && h in s'.ctl.handlers && FrameControl(s, s', {h}, {})
    ensures var r, at := s.ctl.handlers[h], s'.ctl.handlers[h].at;
      !Holds(r.at) && !Holds(at) && s'.ctl.handlers[h] == r.(at := at)
  {
    hide HandlerCloseStep, FrameControl, Holds;
    if s.ctl.handlers[h].at.Swap? || s.ctl.handlers[h].at.Closing? {
      SwapShape(s, s', h);
    } else {
      CancelShape(s, s', h);
    }
  }

  lemma EndShape(s: State, s': State, h: Hid)
    requires h in s.ctl.handlers && s.ctl.handlers[h].conn in s.ctl.conns && HandlerEndStep(s, s', h)
    ensures s'.mem == s.mem && FrameControl(s, s', {h}, {})
    ensures !Holds(s.ctl.handlers[h].at)
    ensures h in s'.ctl.handlers ==> s'.ctl.handlers[h] == s.ctl.handlers[h].(at := Release)
  {
  }

  lemma EndingKept(s: State, s': State, h: Hid, at: HandlerAt)
    requires PacketsOk(s) && h in s.ctl.handlers && !Holds(s.ctl.handlers[h].at) && !Holds(at)
    requires s'.mem == s.mem && FrameControl(s, s', {h}, {})
    requires h in s'.ctl.handlers ==> s'.ctl.handlers[h] == s.ctl.handlers[h].(at := at)
    ensures PacketsOk(s')
  {
    hide SharedOk, ConnsOk, Placed, FrameControl, HandlerOk, InHands;
    assert HandlerOk(s.mem, h, s.ctl.handlers[h]);
    LaterPoint(s.mem, h, s.ctl.handlers[h], at);
    hide PacketsOk;
    QuietHandler(s, s', h);
  }

  // Dispatchers

  lemma ReadKept(s: State, s': State, c: Cid)
    requires PacketsOk(s) && c in s.ctl.conns && ReadStep(s, s', c)
    ensures PacketsOk(s')
  {
    hide PacketsOk, Pop;
    if s'.mem == s.mem && !s'.ctl.conns[c].at.Holding? {
      QuietConn(s, s', c, s'.ctl.conns[c]);
    } else {
      PopKept(s, s', c);
    }
  }

  lemma PopKept(s: State, s': State, c: Cid)
    requires PacketsOk(s) && c in s.ctl.conns && !s.ctl.conns[c].at.Holding? && c in s.mem.queues && s.mem.queues[c] != []
    requires c in s.mem.fetched && s'.mem == Pop(s.mem, c, WithDispatcher(c)) && s'.ctl.handlers == s.ctl.handlers
    requires c in s'.ctl.conns && s'.ctl.conns[c].at == Holding(s.mem.queues[c][0])
    requires s'.ctl.conns == s.ctl.conns[c := s'.ctl.conns[c]]
    ensures PacketsOk(s')
  {
    hide SharedOk, HandlerOk, Pop;
    var q := s.mem.queues[c];
    assert QueueOk(s.mem, c);
    PopShape(s.mem, c);
    PopAccounted(s, s', c);
    MovedOne(s, s', q[0], {}, {c}, {c});
    OneQueue(s.mem, s'.mem, c);
    if c in s.mem.readers {
      assert ReaderOk(s.mem, c);
    }
    hide Accounted, Placed, QueueOk, FramePlaces, FrameMemory;
    FrameKept(s, s', {q[0]}, {}, {c}, {c});
  }

  lemma PopShape(m: Packets, c: Cid)
    requires SharedOk(m) && c in m.queues && m.queues[c] != [] && QueueOk(m, c)
    ensures var m' := Pop(m, c, WithDispatcher(c));
      && SharedOk(m') && QueueOk(m', c)
      && m'.place == m.place[m.queues[c][0] := WithDispatcher(c)] && m'.readers == m.readers && m'.arrived == m.arrived
      && m'.queues == m.queues[c := m.queues[c][1..]] && c in m'.fetched && m'.fetched == m.fetched[c := m'.fetched[c]]
  {
    hide SharedOk;
    var q := m.queues[c];
    MoveShared(m, q[0], WithDispatcher(c));
    QueueShared(Dispatch.Move(m, q[0], WithDispatcher(c)), Pop(m, c, WithDispatcher(c)));
    assert m.fetched[c] + q == (m.fetched[c] + [q[0]]) + q[1..];
  }

  lemma OneQueue(m: Packets, m': Packets, c: Cid)
    requires c in m.queues && c in m'.queues && m'.queues == m.queues[c := m'.queues[c]]
    requires m'.readers == m.readers && m'.arrived == m.arrived
    requires c in m'.fetched && m'.fetched == m.fetched[c := m'.fetched[c]]
    ensures FrameMemory(m, m', {c})
  {
  }

  lemma PopAccounted(s: State, s': State, c: Cid)
    requires Placed(s) && c in s.ctl.conns && !s.ctl.conns[c].at.Holding? && c in s.mem.queues && s.mem.queues[c] != []
    requires c in s.mem.fetched && s'.mem == Pop(s.mem, c, WithDispatcher(c)) && s'.ctl.handlers == s.ctl.handlers
    requires c in s'.ctl.conns && s'.ctl.conns[c].at == Holding(s.mem.queues[c][0])
    ensures Accounted(s', {s.mem.queues[c][0]}, {}, {c}, {c})
  {
    var q := s.mem.queues[c];
    forall y | y in s'.mem.place && y != q[0] && Concerned(s'.mem.place[y], {}, {c}, {c})
      ensures Found(s', y, s'.mem.place[y])
    {
      assert Found(s, y, s.mem.place[y]);
      assert q == [q[0]] + q[1..];
    }
  }

  /** A dispatcher holds one packet only, and a handler that is not there none. */
  lemma NothingElse(s: State, c: Cid, p: Pid, hs: set<Hid>)
    requires Placed(s) && c in s.ctl.conns && s.ctl.conns[c].at == Holding(p)
    requires forall h :: h in hs ==> h !in s.ctl.handlers
    ensures forall y :: y in s.mem.place && y != p ==> !Concerned(s.mem.place[y], hs, {c}, {})
  {
    forall y | y in s.mem.place && y != p
      ensures !Concerned(s.mem.place[y], hs, {c}, {})
    {
      assert s.mem.place[y] == Dropped || Found(s, y, s.mem.place[y]);
    }
  }

  /** A packet that leaves the dispatcher's hands. */
  lemma HandOverKept(s: State, s': State, c: Cid, p: Pid, place: Place, hs: set<Hid>)
    requires PacketsOk(s) && c in s.ctl.conns && s.ctl.conns[c].at == Holding(p)
    requires s'.mem == Dispatch.Move(s.mem, p, place) && place != InPool && place != InStream
    requires place != Dropped ==> Found(s', p, place)
    requires c in s'.ctl.conns && !s'.ctl.conns[c].at.Holding? && FrameControl(s, s', hs, {c})
    requires forall h :: h in hs ==> h !in s.ctl.handlers
    requires forall h :: h in hs && h in s'.ctl.handlers ==> HandlerOk(s'.mem, h, s'.ctl.handlers[h])
    ensures PacketsOk(s')
  {
    assert DispatcherOk(s.mem, c, s.ctl.conns[c].at);
    MoveShared(s.mem, p, place);
    hide SharedOk, HandlerOk, QueueOk, ReaderOk;
    NothingElse(s, c, p, hs);
    assert Accounted(s', {p}, hs, {c}, {});
    MovedOne(s, s', p, hs, {c}, {});
    SameMemory(s.mem, s'.mem);
    hide Accounted, Placed, Found, FramePlaces, FrameControl, FrameMemory;
    FrameKept(s, s', {p}, hs, {c}, {});
  }

  lemma LaunchingKept(s: State, s': State, c: Cid, h: Hid)
    requires PacketsOk(s) && c in s.ctl.conns && LaunchStep(s, s', c, h) && DispatchControl.ConnOk(s.ctl, c)
    requires s.ctl.conns[c].at.Launching?
    ensures PacketsOk(s')
  {
    hide SharedOk, QueueOk, ReaderOk, DispatchControl.NotifierOk;
    var g := s.ctl.conns[c].at.handler;
    assert HandlerOk(s.mem, g, s.ctl.handlers[g]);
    assert Accounted(s', {}, {g}, {c}, {}) by {
      forall y | y in s'.mem.place && Concerned(s'.mem.place[y], {g}, {c}, {})
        ensures Found(s', y, s'.mem.place[y])
      {
        assert Found(s, y, s.mem.place[y]);
      }
    }
    hide Accounted, Placed, Found;
    FrameKept(s, s', {}, {g}, {c}, {});
  }

  lemma DropKept(s: State, s': State, c: Cid, p: Pid)
    requires PacketsOk(s) && c in s.ctl.conns && s.ctl.conns[c].at == Holding(p)
    requires s' == s.(ctl := SetConn(s.ctl, c, s.ctl.conns[c].(at := Shutting(true), quit := true)),
                      mem := Dispatch.Move(s.mem, p, Dropped))
    ensures PacketsOk(s')
  {
    hide PacketsOk;
    OneConn(s, s', c);
    hide FrameControl;
    HandOverKept(s, s', c, p, Dropped, {});
  }

  lemma StartKept(s: State, s': State, c: Cid, p: Pid, h: Hid, d: Conn, r: Handler)
    requires PacketsOk(s) && c in s.ctl.conns && s.ctl.conns[c].at == Holding(p) && h !in s.ctl.handlers
    requires !d.at.Holding? && Holds(r.at) && r.packet == p && r.out == None && r.puts == 0 && (r.at.Ready? || r.at.Granted?)
    requires s'.ctl.conns == s.ctl.conns[c := d] && s'.ctl.handlers == s.ctl.handlers[h := r]
    requires s'.mem == Dispatch.Move(s.mem, p, WithHandler(h))
    ensures PacketsOk(s')
  {
    hide PacketsOk;
    HandOverKept(s, s', c, p, WithHandler(h), {h});
  }

  lemma LaunchKept(s: State, s': State, c: Cid, h: Hid)
    requires PacketsOk(s) && c in s.ctl.conns && LaunchStep(s, s', c, h) && DispatchControl.ConnOk(s.ctl, c)
    ensures PacketsOk(s')
  {
    hide PacketsOk, DispatchControl.ConnOk, Dispatch.Move, Holds;
    match s.ctl.conns[c].at
    case Holding(p) =>
      if s'.ctl.conns[c].at.Shutting? {
        DropKept(s, s', c, p);
      } else {
        Carries(s'.ctl.handlers[h]);
        StartKept(s, s', c, p, h, s'.ctl.conns[c], s'.ctl.handlers[h]);
      }
    case Launching(g) => LaunchingKept(s, s', c, h);
    case _ =>
  }

  lemma Carries(r: Handler)
    ensures r.at.Ready? || r.at.Granted? ==> Holds(r.at)
  {
  }

  lemma FlagShape(s: State, s': State, c: Cid)
    requires c in s.ctl.conns && FinishStep(s, s', c)
    requires s.ctl.conns[c].at.Swapping? || s.ctl.conns[c].at.Notifying? || s.ctl.conns[c].at.Waiting?
    ensures s'.mem == s.mem && s'.ctl.handlers == s.ctl.handlers
    ensures c in s'.ctl.conns && s'.ctl.conns == s.ctl.conns[c := s'.ctl.conns[c]]
    ensures !s'.ctl.conns[c].at.Holding? && !s.ctl.conns[c].at.Holding?
  {
  }

  lemma OtherShape(s: State, s': State, c: Cid)
    requires c in s.ctl.conns && FinishStep(s, s', c)
    requires !s.ctl.conns[c].at.Swapping? && !s.ctl.conns[c].at.Notifying? && !s.ctl.conns[c].at.Waiting?
    ensures s'.mem == s.mem && s'.ctl.handlers == s.ctl.handlers
    ensures c in s'.ctl.conns && s'.ctl.conns == s.ctl.conns[c := s'.ctl.conns[c]]
    ensures !s'.ctl.conns[c].at.Holding? && !s.ctl.conns[c].at.Holding?
  {
  }

  lemma FinishShape(s: State, s': State, c: Cid)
    requires c in s.ctl.conns && FinishStep(s, s', c)
    ensures s'.mem == s.mem && s'.ctl.handlers == s.ctl.handlers
    ensures c in s'.ctl.conns && s'.ctl.conns == s.ctl.conns[c := s'.ctl.conns[c]]
    ensures !s'.ctl.conns[c].at.Holding? && !s.ctl.conns[c].at.Holding?
  {
    hide FinishStep;
    if s.ctl.conns[c].at.Swapping? || s.ctl.conns[c].at.Notifying? || s.ctl.conns[c].at.Waiting? {
      FlagShape(s, s', c);
    } else {
      OtherShape(s, s', c);
    }
  }

  lemma FinishKept(s: State, s': State, c: Cid)
    requires PacketsOk(s) && c in s.ctl.conns && FinishStep(s, s', c)
    ensures PacketsOk(s')
  {
    FinishShape(s, s', c);
    hide PacketsOk, FinishStep;
    QuietConn(s, s', c, s'.ctl.conns[c]);
  }

  // The invariant is inductive

  lemma HandlerKept(s: State, s': State, h: Hid)
    requires PacketsOk(s) && h in s.ctl.handlers && HandlerStep(s, s', h)
    ensures PacketsOk(s')
  {
    hide RunStep, TestStep, PutStep, HandlerCloseStep, HandlerEndStep, PacketsOk, FrameControl;
    if x, fits, asked :| RunStep(s, s', h, x, fits, asked) {
      RunKept(s, s', h, x, fits, asked);
    } else if TestStep(s, s', h) {
      TestKept(s, s', h);
    } else if PutStep(s, s', h) {
      if s.ctl.handlers[h].at.PutIn? {
        PutInKept(s, s', h);
      } else {
        PutOutKept(s, s', h);
      }
    } else if HandlerCloseStep(s, s', h) {
      CloseShape(s, s', h);
      EndingKept(s, s', h, s'.ctl.handlers[h].at);
    } else {
      EndShape(s, s', h);
      EndingKept(s, s', h, Release);
    }
  }

  lemma DispatcherKept(s: State, s': State, c: Cid)
    requires PacketsOk(s) && c in s.ctl.conns && DispatcherStep(s, s', c) && DispatchControl.ConnOk(s.ctl, c)
    ensures PacketsOk(s')
  {
    hide ReadStep, LaunchStep, FinishStep, PacketsOk, DispatchControl.ConnOk;
    if ReadStep(s, s', c) {
      ReadKept(s, s', c);
    } else if h :| LaunchStep(s, s', c, h) {
      LaunchKept(s, s', c, h);
    } else {
      FinishKept(s, s', c);
    }
  }

  lemma NextKept(s: State, s': State)
    requires PacketsOk(s) && DispatchControl.Inv(s) && Next(s, s')
    ensures PacketsOk(s')
  {
    hide HandlerStep, DispatcherStep, AcceptStep, FetchStep, HandOnStep, PacketsOk;
    if c :| AcceptStep(s, s', c) {
      AcceptKept(s, s', c);
    } else if c, x, f :| FetchStep(s, s', c, x, f) {
      FetchKept(s, s', c, x, f);
    } else if c :| HandOnStep(s, s', c) {
      HandOnKept(s, s', c);
    } else if c :| CancelStep(s, s', c) {
      QuietConn(s, s', c, s'.ctl.conns[c]);
    } else if h :| h in s.ctl.handlers && HandlerStep(s, s', h) {
      HandlerKept(s, s', h);
    } else {
      var c :| c in s.ctl.conns && DispatcherStep(s, s', c);
      DispatcherKept(s, s', c);
    }
  }

  lemma {:induction false} RunKeepsPackets(run: seq<State>, i: nat)
    requires IsRun(run) && i < |run|
    ensures PacketsOk(run[i])
  {
    hide Next, DispatchControl.Inv;
    if i > 0 {
      RunKeepsPackets(run, i - 1);
      DispatchControl.RunKeepsInv(run, i - 1);
      assert Next(run[i - 1], run[(i - 1) + 1]);
      NextKept(run[i - 1], run[i]);
    }
  }
}
