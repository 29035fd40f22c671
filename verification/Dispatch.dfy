/** The server's packet dispatchers in the unlimited and the limited mode: any number
    of connections sharing one limiter, each with its dispatcher and the handler
    goroutines it started, interleaved at every channel, atomic, wait-group and pool
    operation, and each with its read loop as far as it gets, hands on and returns
    packets. */
module Dispatch {
  import opened Options
  import Wire
  import ReadLoop

  type Cid = nat      // connection
  type Hid = nat      // handler goroutine
  type Pid = nat      // packet object

  /** Who won the connection's closed flag. */
  datatype Who = Dispatcher | Goroutine(handler: Hid)

  /** Where a handler goroutine is in createHandler's closure. */
  datatype HandlerAt =
    | Granted | Ready | Running | Testing | Writing | PutOut | PutIn
    | Closing | Swap | Notify | Cancel | Done | Release

  datatype Handler = Handler(
    conn: Cid,
    packet: Pid,
    out: Option<Pid>,      // the outgoing packet until it is put back or given up
    fits: bool,            // whether its length is right
    asked: bool,           // the CLOSE action
    failed: bool,          // a failed write
    puts: nat,             // history: how often the dispatched packet was put back
    at: HandlerAt)

  /** Where a dispatcher is. `viaCancel` marks the way out through the context. */
  datatype DispatcherAt =
    | First | FirstClose | FirstNotify
    | Holding(packet: Pid) | Launching(handler: Hid) | Reading
    | Shutting(viaCancel: bool) | Swapping(viaCancel: bool) | Notifying(viaCancel: bool)
    | Cancelling | Waiting | Returned

  datatype Conn = Conn(
    at: DispatcherAt,
    connClosed: bool,      // history: Close was called on the connection
    readFailed: bool,      // history: ReadPacket has failed
    quit: bool,            // history: the dispatcher has seen its context end
    flag: bool,            // the closed flag shared with the handlers
    winner: Option<Who>,   // history: who calls onClosed
    completed: nat,        // history: completed onClosed calls
    cancelled: bool,
    wg: nat)

  datatype Control = Control(
    limiter: nat,          // tokens in the channel
    conns: map<Cid, Conn>,
    handlers: map<Hid, Handler>)

  /** What the frame turns out to be that a read loop has taken a packet for: the decoder's
      outcome, whether the PONG is written or the queue takes the packet, and whether a
      stream handler is set. */
  datatype Frame = Frame(outcome: ReadLoop.Outcome, taken: bool, handler: bool)

  /** Where a read loop is: between two packets, with a packet from the pool, or gone. */
  datatype Reader = Between | Has(packet: Pid, frame: Frame) | Stopped

  /** Where a packet object is; history, not consulted by any step but to tell a new
      object from an old one. */
  datatype Place =
    | InPool | WithReader(reader: Cid) | InQueue(conn: Cid) | InStream
    | WithDispatcher(dispatcher: Cid) | WithHandler(handler: Hid) | Dropped

  datatype Packets = Packets(
    pool: multiset<Pid>,
    readers: map<Cid, Reader>,
    queues: map<Cid, seq<Pid>>,
    arrived: map<Cid, seq<Pid>>,   // history: all that was queued
    fetched: map<Cid, seq<Pid>>,   // history: all that ReadPacket has given out
    streamed: set<Pid>,    // handed to streams, whose readers own them
    place: map<Pid, Place>)

  /** `concurrency` is what SetConcurrency was given: 0 for the unlimited mode, and more
      than 1 for the limited mode, where it is the capacity of the limiter. */
  datatype State = State(concurrency: nat, ctl: Control, mem: Packets, fault: bool)

  predicate Init(s: State) {
    && s.concurrency != 1
    && s.ctl == Control(0, map[], map[])
    && s.mem == Packets(multiset{}, map[], map[], map[], map[], {}, map[])
    && !s.fault
  }

  // Small moves

  function SetConn(k: Control, c: Cid, d: Conn): Control {
    k.(conns := k.conns[c := d])
  }

  function SetHandler(k: Control, h: Hid, r: Handler): Control {
    k.(handlers := k.handlers[h := r])
  }

  function Move(m: Packets, x: Pid, p: Place): Packets {
    m.(place := m.place[x := p])
  }

  /** packet.Put. */
  function Put(m: Packets, x: Pid): Packets {
    m.(pool := m.pool + multiset{x}, place := m.place[x := InPool])
  }

  /** packet.Get: some pooled packet, or a new one. */
  predicate Available(m: Packets, x: Pid) {
    x in m.pool || x !in m.place
  }

  function Get(m: Packets, x: Pid, p: Place): Packets {
    m.(pool := m.pool - multiset{x}, place := m.place[x := p])
  }

  function Pop(m: Packets, c: Cid, p: Place): Packets
    requires c in m.queues && m.queues[c] != [] && c in m.fetched
  {
    m.(queues := m.queues[c := m.queues[c][1..]], fetched := m.fetched[c := m.fetched[c] + [m.queues[c][0]]],
       place := m.place[m.queues[c][0] := p])
  }

  // The environment: connections arrive with their read loops, contexts are cancelled

  ghost predicate AcceptStep(s: State, s': State, c: Cid) {
    && c !in s.ctl.conns && c !in s.mem.queues && c !in s.mem.readers
    && s' == s.(ctl := SetConn(s.ctl, c, Conn(First, false, false, false, false, None, 0, false, 0)),
                mem := s.mem.(queues := s.mem.queues[c := []], readers := s.mem.readers[c := Between],
                              arrived := s.mem.arrived[c := []], fetched := s.mem.fetched[c := []]))
  }

  ghost predicate CancelStep(s: State, s': State, c: Cid) {
    c in s.ctl.conns && s' == s.(ctl := SetConn(s.ctl, c, s.ctl.conns[c].(cancelled := true)))
  }

  // Read loops

  function SetReader(m: Packets, c: Cid, r: Reader): Packets {
    m.(readers := m.readers[c := r])
  }

  /** readLoop takes a packet for the next frame, or has ended. */
  ghost predicate FetchStep(s: State, s': State, c: Cid, x: Pid, f: Frame) {
    && c in s.mem.readers && s.mem.readers[c] == Between
    && (|| s' == s.(mem := SetReader(s.mem, c, Stopped))
        || (Available(s.mem, x) && s' == s.(mem := SetReader(Get(s.mem, x, WithReader(c)), c, Has(x, f)))))
  }

  /** Where the loop's packet goes: a PING's, once answered, a PONG's, a stream close's, and
      stream data's without a handler go back to the pool; data goes into the incoming
      queue and stream data into its stream's; and every error exit gives the packet up. */
  function Destination(f: Frame, c: Cid): Place {
    match f.outcome
    case Bad(_) => Dropped
    case Short => Dropped
    case Got(Ping) => if f.taken then InPool else Dropped
    case Got(Pong) => InPool
    case Got(Data(_)) => if f.taken then InQueue(c) else Dropped
    case Got(StreamClose(_)) => InPool
    case Got(StreamData(_)) => if !f.handler then InPool else if f.taken then InStream else Dropped
  }

  /** Packet x on its way there. */
  function HandOn(m: Packets, c: Cid, x: Pid, to: Place): Packets
    requires c in m.queues && c in m.arrived
  {
    match to
    case InPool => Put(SetReader(m, c, Between), x)
    case InQueue(_) =>
      Move(SetReader(m, c, Between), x, InQueue(c)).(
        queues := m.queues[c := m.queues[c] + [x]], arrived := m.arrived[c := m.arrived[c] + [x]])
    case InStream => Move(SetReader(m, c, Between), x, InStream).(streamed := m.streamed + {x})
    case _ => Move(SetReader(m, c, Stopped), x, Dropped)
  }

  ghost predicate HandOnStep(s: State, s': State, c: Cid) {
    && c in s.mem.readers && s.mem.readers[c].Has? && c in s.mem.queues && c in s.mem.arrived
    && s' == s.(mem := HandOn(s.mem, c, s.mem.readers[c].packet, Destination(s.mem.readers[c].frame, c)))
  }

  // Handlers

  function At(k: Control, h: Hid, at: HandlerAt): Control
    requires h in k.handlers
  {
    SetHandler(k, h, k.handlers[h].(at := at))
  }

  /** The handler function and what it returns: nothing, its input, or a fresh packet,
      each with the right length or not, and an action. */
  ghost predicate RunStep(s: State, s': State, h: Hid, x: Pid, fits: bool, asked: bool)
    requires h in s.ctl.handlers
  {
    var r := s.ctl.handlers[h];
    if r.at == Ready then
      || s' == s.(ctl := At(s.ctl, h, Running))
      || s' == s.(ctl := At(s.ctl, h, PutIn))              // no handler for the operation
    else
      && r.at == Running
      && (|| s' == s.(ctl := SetHandler(s.ctl, h, r.(asked := asked, at := PutIn)))
          || s' == s.(ctl := SetHandler(s.ctl, h, r.(out := Some(r.packet), fits := fits, asked := asked, at := Testing)))
          || (Available(s.mem, x) &&
              s' == s.(ctl := SetHandler(s.ctl, h, r.(out := Some(x), fits := fits, asked := asked, at := Testing)),
                       mem := Get(s.mem, x, WithHandler(h)))))
  }

  /** The length test: an answer of the wrong length is given up, and lost unless it is
      the input. */
  ghost predicate TestStep(s: State, s': State, h: Hid)
    requires h in s.ctl.handlers
  {
    var r := s.ctl.handlers[h];
    && r.at == Testing
    && (if r.fits then s' == s.(ctl := At(s.ctl, h, Writing))
        else if r.out.Some? && r.out.value != r.packet then
          s' == s.(ctl := SetHandler(s.ctl, h, r.(out := None, at := PutIn)), mem := Move(s.mem, r.out.value, Dropped))
        else s' == s.(ctl := SetHandler(s.ctl, h, r.(out := None, at := PutIn))))
  }

  /** Writing the outgoing packet, and returning packets to the pool. */
  ghost predicate PutStep(s: State, s': State, h: Hid)
    requires h in s.ctl.handlers
  {
    var r := s.ctl.handlers[h];
    match r.at
    case Writing =>
      || s' == s.(ctl := At(s.ctl, h, PutOut))
      || s' == s.(ctl := SetHandler(s.ctl, h, r.(failed := true, at := PutOut)))
    case PutOut =>
      if r.out.Some? && r.out.value != r.packet then
        s' == s.(ctl := SetHandler(s.ctl, h, r.(out := None, at := PutIn)), mem := Put(s.mem, r.out.value))
      else
        s' == s.(ctl := SetHandler(s.ctl, h, r.(out := None, at := PutIn)))
    case PutIn =>
      s' == s.(ctl := SetHandler(s.ctl, h, r.(puts := r.puts + 1, at := if r.asked || r.failed then Closing else Done)),
               mem := Put(s.mem, r.packet))
    case _ => false
  }

  /** Closing the connection from a handler. */
  ghost predicate HandlerCloseStep(s: State, s': State, h: Hid)
    requires h in s.ctl.handlers && s.ctl.handlers[h].conn in s.ctl.conns
  {
    var r := s.ctl.handlers[h];
    var d := s.ctl.conns[r.conn];
    match r.at
    case Closing => s' == s.(ctl := SetConn(At(s.ctl, h, Swap), r.conn, d.(connClosed := true)))
    case Swap =>
      if d.flag then s' == s.(ctl := At(s.ctl, h, Cancel))
      else s' == s.(ctl := SetConn(At(s.ctl, h, Notify), r.conn, d.(flag := true, winner := Some(Goroutine(h)))))
    case Notify => s' == s.(ctl := SetConn(At(s.ctl, h, Cancel), r.conn, d.(completed := d.completed + 1)))
    case Cancel => s' == s.(ctl := SetConn(At(s.ctl, h, Done), r.conn, d.(cancelled := true)))
    case _ => false
  }

  /** wg.Done, and in the limited mode the token. */
  ghost predicate HandlerEndStep(s: State, s': State, h: Hid)
    requires h in s.ctl.handlers && s.ctl.handlers[h].conn in s.ctl.conns
  {
    var r := s.ctl.handlers[h];
    var d := s.ctl.conns[r.conn];
    match r.at
    case Done =>
      var k := SetConn(s.ctl, r.conn, d.(wg := if d.wg == 0 then 0 else d.wg - 1));
      if s.concurrency > 1 then s' == s.(ctl := At(k, h, Release), fault := s.fault || d.wg == 0)
      else s' == s.(ctl := k.(handlers := k.handlers - {h}), fault := s.fault || d.wg == 0)
    case Release =>
      && s.ctl.limiter > 0
      && s' == s.(ctl := s.ctl.(limiter := s.ctl.limiter - 1, handlers := s.ctl.handlers - {h}))
    case _ => false
  }

  // Dispatchers

  /** ReadPacket: the head of the queue, or an error. */
  ghost predicate ReadStep(s: State, s': State, c: Cid)
    requires c in s.ctl.conns
  {
    var d := s.ctl.conns[c];
    && (d.at == First || d.at == Reading)
    && (|| s' == s.(ctl := SetConn(s.ctl, c,
             if d.at == First then d.(at := FirstClose, readFailed := true, winner := Some(Dispatcher))
             else d.(at := Shutting(false), readFailed := true)))
        || (c in s.mem.queues && s.mem.queues[c] != [] && c in s.mem.fetched &&
            s' == s.(ctl := SetConn(s.ctl, c, d.(at := Holding(s.mem.queues[c][0]))),
                     mem := Pop(s.mem, c, WithDispatcher(c)))))
  }

  /** Starting a handler for the packet in hand; in the limited mode the token comes
      first, or the context ends the dispatcher and the packet is dropped. */
  ghost predicate LaunchStep(s: State, s': State, c: Cid, h: Hid)
    requires c in s.ctl.conns
  {
    var d := s.ctl.conns[c];
    match d.at
    case Holding(p) =>
      || (h !in s.ctl.handlers && s.concurrency == 0 &&
          s' == s.(ctl := SetHandler(SetConn(s.ctl, c, d.(at := Reading, wg := d.wg + 1)), h,
                                     Handler(c, p, None, false, false, false, 0, Ready)),
                   mem := Move(s.mem, p, WithHandler(h))))
      || (h !in s.ctl.handlers && s.concurrency > 1 && s.ctl.limiter < s.concurrency &&
          s' == s.(ctl := SetHandler(SetConn(s.ctl, c, d.(at := Launching(h))), h,
                                     Handler(c, p, None, false, false, false, 0, Granted)).(limiter := s.ctl.limiter + 1),
                   mem := Move(s.mem, p, WithHandler(h))))
      || (s.concurrency > 1 && d.cancelled &&
          s' == s.(ctl := SetConn(s.ctl, c, d.(at := Shutting(true), quit := true)), mem := Move(s.mem, p, Dropped)))
    case Launching(g) =>
      && g in s.ctl.handlers
      && s' == s.(ctl := SetConn(At(s.ctl, g, Ready), c, d.(at := Reading, wg := d.wg + 1)))
    case _ => false
  }

  ghost predicate FinishStep(s: State, s': State, c: Cid)
    requires c in s.ctl.conns
  {
    var d := s.ctl.conns[c];
    match d.at
    case FirstClose => s' == s.(ctl := SetConn(s.ctl, c, d.(at := FirstNotify, connClosed := true)))
    case FirstNotify => s' == s.(ctl := SetConn(s.ctl, c, d.(at := Returned, completed := d.completed + 1)))
    case Shutting(v) => s' == s.(ctl := SetConn(s.ctl, c, d.(at := Swapping(v), connClosed := true)))
    case Swapping(v) =>
      if d.flag then s' == s.(ctl := SetConn(s.ctl, c, d.(at := if v then Waiting else Cancelling)))
      else s' == s.(ctl := SetConn(s.ctl, c, d.(at := Notifying(v), flag := true, winner := Some(Dispatcher))))
    case Notifying(v) =>
      s' == s.(ctl := SetConn(s.ctl, c, d.(at := if v then Waiting else Cancelling, completed := d.completed + 1)))
    case Cancelling => s' == s.(ctl := SetConn(s.ctl, c, d.(at := Waiting, cancelled := true)))
    case Waiting => d.wg == 0 && s' == s.(ctl := SetConn(s.ctl, c, d.(at := Returned)))
    case _ => false
  }

  ghost predicate HandlerStep(s: State, s': State, h: Hid)
    requires h in s.ctl.handlers
  {
    || (exists x, fits, asked :: RunStep(s, s', h, x, fits, asked))
    || TestStep(s, s', h)
    || PutStep(s, s', h)
    || (s.ctl.handlers[h].conn in s.ctl.conns && (HandlerCloseStep(s, s', h) || HandlerEndStep(s, s', h)))
  }

  ghost predicate DispatcherStep(s: State, s': State, c: Cid)
    requires c in s.ctl.conns
  {
    ReadStep(s, s', c) || (exists h :: LaunchStep(s, s', c, h)) || FinishStep(s, s', c)
  }

  ghost predicate Next(s: State, s': State) {
    || (exists c :: AcceptStep(s, s', c))
    || (exists c, x, f :: FetchStep(s, s', c, x, f))
    || (exists c :: HandOnStep(s, s', c))
    || (exists c :: CancelStep(s, s', c))
    || (exists h :: h in s.ctl.handlers && HandlerStep(s, s', h))
    || (exists c :: c in s.ctl.conns && DispatcherStep(s, s', c))
  }

  ghost predicate IsRun(run: seq<State>) {
    && run != [] && Init(run[0])
    && forall i :: 0 <= i < |run| - 1 ==> Next(run[i], run[i + 1])
  }
}
