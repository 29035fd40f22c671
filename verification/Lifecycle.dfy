/** The life cycle of an Async connection as a step system: its constructor, any
    number of API callers and the three background loops, interleaved at every lock,
    atomic, channel, wait-group and connection operation.

    The error mutex and the stream-table mutex only make fewer interleavings
    possible and are not modelled: every run of the code is a run of this system. */
module Lifecycle {
  import opened MetadataCodec
  import opened Wire
  import opened Options

  type Tid = nat

  // The three goroutines started by NewAsync, in this order; every other thread is an
  // API caller.
  const FLUSHLOOP: Tid := 0
  const READLOOP: Tid := 1
  const PINGLOOP: Tid := 2

  predicate IsLoop(t: Tid) {
    t < 3
  }

  /** Who called close: Close, Raw, or closeWithError. */
  datatype Caller = ByClose | ByRaw | ByError

  /** Where a thread is inside writePacket. From WCheck to WUnlock, and at WRefuse
      and WFail, it holds the mutex. */
  datatype WriteAt =
    | WLock | WCheck | WDeadline | WHeader | WContent | WLen | WSend | WUnlock
    | WRefuse | WFail | WFailed

  /** Where a thread is inside flush. */
  datatype FlushAt = FLock | FCheck | FBuffered | FFlush | FUnlock | FFail

  /** Where a thread is inside close: before the compare-and-swap, on the way out
      after losing it, or, having won, at one of the numbered points below. */
  datatype CloseAt = CStale | CSwap | CLost | CWon(point: nat) | CStream(sat: StreamAt)

  /** Where the winner is inside the closeSend(false) of one stream. */
  datatype StreamAt = SLock | SCheck | SUnlock

  // The winner's points, in order
  const LOCK: nat := 1            // before taking the mutex
  const QUEUE: nat := 2           // before incoming.Close
  const CLOSECH: nat := 3         // before close(closeCh)
  const FLUSHCH: nat := 4         // before close(flushCh)
  const UNLOCK: nat := 5
  const PAST: nat := 6            // before the deadline in the past
  const WAIT: nat := 7            // before wg.Wait
  const EMPTY: nat := 8           // before the deadline is removed
  const DRAIN: nat := 9
  const STALEUNLOCK: nat := 10
  const STREAMS: nat := 11
  const FINALLOCK: nat := 12
  const FINALFLUSH: nat := 13
  const FINALUNLOCK: nat := 14
  const CONNCLOSE: nat := 15      // before conn.Close
  const FINISHED: nat := 16       // the winning call has returned

  /** Where a thread is inside ReadPacket. */
  datatype ReadAt = RLoad | RStaleLock | RTake | RPop | RReload

  datatype Pc =
    | Idle                                      // API: no call; loop: at its head
    | Writing(packet: Packet, wat: WriteAt)
    | Flushing(fat: FlushAt)
    | Closing(caller: Caller, cat: CloseAt)
    | Reading(rat: ReadAt)
    | Pushing(packet: Packet)                   // readLoop at incoming.Push
    | Leaving(again: bool)                      // loop at wg.Done; then closeWithError or return
    | Exited

  datatype Op = SetDeadline | Read | Write | CloseConn

  /** The synchronisation variables of the Async struct. */
  datatype Memory = Memory(
    lock: Option<Tid>,          // the embedded mutex
    staleMu: Option<Tid>,
    closed: bool,
    tokens: nat,                // in flushCh
    flushChClosed: bool,
    closeChClosed: bool,
    queueClosed: bool,
    wg: nat)

  /** The buffered writer with its sticky error, the wire, and their history. */
  datatype Outgoing = Outgoing(
    buffered: seq<byte>,
    wire: seq<byte>,
    broken: bool,               // the writer's sticky error
    order: seq<Packet>,         // packets whose writing began, in lock order
    accepted: seq<Packet>,      // packets whose writePacket returned nil, in lock order
    inflight: seq<Packet>,      // begun, not yet accepted or failed
    owed: seq<byte>,            // content of a packet whose header is already written
    unsignalled: bool,          // bytes written, flush loop not yet told
    ioError: bool)              // any failure so far

  /** The incoming queue, the stale packets, and their history. */
  datatype Incoming = Incoming(
    queue: seq<Packet>,
    stale: seq<Packet>,
    decoded: seq<Packet>,       // data packets the read loop has decoded
    pushed: seq<Packet>,
    refused: seq<Packet>,       // those the closed queue refused
    delivered: seq<Packet>,
    closedReported: bool)       // some ReadPacket returned ConnectionClosed

  /** History of the close call that won the compare-and-swap: how far it has come. */
  datatype Winner = Winner(phase: nat, thread: Tid, caller: Caller)

  datatype State = State(
    max: uint32,
    boot: nat,                  // how far NewAsync has come: Add and go for each loop in turn
    mem: Memory,
    out: Outgoing,
    inc: Incoming,
    win: Winner,
    past: bool,                 // a deadline in the past is set on the connection
    ops: seq<(Tid, Op)>,        // history of operations on the underlying connection
    fault: bool,                // history: send on or second close of a closed channel, negative
                                // wait group, stream close frame after close, or a raw queue error
    threads: map<Tid, Pc>)

  predicate Init(s: State) {
    && s.boot == 0
    && s.mem == Memory(None, None, false, 0, false, false, false, 0)
    && s.out == Outgoing([], [], false, [], [], [], [], false, false)
    && s.inc == Incoming([], [], [], [], [], [], false)
    && s.win.phase == 0
    && !s.past && s.ops == [] && !s.fault
    && s.threads == map[]
  }

  // The constructor's points
  const READING: nat := 4         // the read loop is started
  const ADDED: nat := 5           // the ping loop is counted
  const MADE: nat := 6            // NewAsync has returned

  /** What API callers may hand to writePacket: user operations through
      WritePacket, the STREAM operation through a stream. */
  predicate Admissible(p: Packet, max: uint32) {
    Sendable(p, max) && (p.operation > RESERVED9 || p.operation == STREAM)
  }

  // Small moves

  function To(s: State, t: Tid, pc: Pc): State {
    s.(threads := s.threads[t := pc])
  }

  function Locked(s: State, t: Tid): State {
    s.(mem := s.mem.(lock := Some(t)))
  }

  function Unlocked(s: State): State {
    s.(mem := s.mem.(lock := None))
  }

  function Did(s: State, t: Tid, op: Op): State {
    s.(ops := s.ops + [(t, op)])
  }

  function Faulted(s: State, bad: bool): State {
    s.(fault := s.fault || bad)
  }

  // Where a call returns to

  function AfterRefusal(t: Tid): Pc {
    if IsLoop(t) then Leaving(true) else Idle
  }

  function AfterFailure(s: State, t: Tid): Pc {
    if IsLoop(t) then Leaving(true) else if s.mem.closed then Idle else Closing(ByError, CStale)
  }

  function AfterFlushError(t: Tid): Pc {
    if IsLoop(t) then Leaving(true) else Closing(ByError, CStale)
  }

  function AfterClose(t: Tid): Pc {
    if IsLoop(t) then Exited else Idle
  }

  // The buffered writer

  /** Write succeeded: the data is appended, and some of what was buffered, or of
      the data, may have gone out. */
  predicate Wrote(o: Outgoing, o': Outgoing, data: seq<byte>) {
    && !o.broken
    && o.wire <= o'.wire
    && o'.wire + o'.buffered == o.wire + o.buffered + data
  }

  /** Write or Flush failed: some prefix went out; once broken nothing moves. */
  predicate FailedWrite(o: Outgoing, o': Outgoing, data: seq<byte>) {
    if o.broken then o'.wire == o.wire && o'.buffered == o.buffered
    else o.wire <= o'.wire && o'.wire + o'.buffered <= o.wire + o.buffered + data
  }

  // What happens to the outgoing side in one step of a writer or flusher

  ghost predicate HeaderWritten(o: Outgoing, o': Outgoing, p: Packet) {
    && Wrote(o, o', HeaderBytes(PacketHeader(p)))
    && o' == o.(wire := o'.wire, buffered := o'.buffered,
                order := o.order + [p], inflight := [p], owed := p.content, unsignalled := true)
  }

  ghost predicate HeaderFailed(o: Outgoing, o': Outgoing, p: Packet) {
    && FailedWrite(o, o', HeaderBytes(PacketHeader(p)))
    && o' == o.(wire := o'.wire, buffered := o'.buffered, broken := true, ioError := true,
                order := if o.broken then o.order else o.order + [p])
  }

  ghost predicate ContentWritten(o: Outgoing, o': Outgoing, p: Packet) {
    && Wrote(o, o', p.content)
    && o' == o.(wire := o'.wire, buffered := o'.buffered, owed := [])
  }

  ghost predicate ContentFailed(o: Outgoing, o': Outgoing, p: Packet) {
    && FailedWrite(o, o', p.content)
    && o' == o.(wire := o'.wire, buffered := o'.buffered, broken := true, ioError := true,
                owed := [], inflight := [], unsignalled := false)
  }

  predicate Flushed(o: Outgoing, o': Outgoing) {
    !o.broken && o' == o.(wire := o.wire + o.buffered, buffered := [])
  }

  ghost predicate FlushFailed(o: Outgoing, o': Outgoing) {
    FailedWrite(o, o', []) &&
    o' == o.(wire := o'.wire, buffered := o'.buffered, broken := true, ioError := true)
  }

  // writePacket (the length checks precede the first step)

  /** The critical section's entry, and the ways out without success. */
  ghost predicate GuardStep(s: State, s': State, t: Tid, p: Packet, at: WriteAt) {
    match at
    case WLock =>
      s.mem.lock == None && s' == To(Locked(s, t), t, Writing(p, WCheck))
    case WCheck =>
      s' == To(s, t, Writing(p, if s.mem.closed then WRefuse else WDeadline))
    case WRefuse =>
      s' == To(Unlocked(s), t, AfterRefusal(t))
    case WFail =>
      s' == To(Unlocked(s), t, Writing(p, WFailed))
    case WFailed =>
      s' == To(s, t, AfterFailure(s, t))
    case _ => false
  }

  /** Writing the frame. */
  ghost predicate PutStep(s: State, s': State, t: Tid, p: Packet, at: WriteAt) {
    match at
    case WDeadline =>
      || s' == To(Did(s, t, SetDeadline), t, Writing(p, WHeader))
      || s' == To(Did(s.(out := s.out.(ioError := true)), t, SetDeadline), t, Writing(p, WFail))
    case WHeader =>
      || (HeaderWritten(s.out, s'.out, p) && s' == To(Did(s.(out := s'.out), t, Write), t, Writing(p, WContent)))
      || (HeaderFailed(s.out, s'.out, p) && s' == To(Did(s.(out := s'.out), t, Write), t, Writing(p, WFail)))
    case WContent =>
      if p.contentLength == 0 then
        s' == To(s.(out := s.out.(owed := [])), t, Writing(p, WLen))
      else
      || (ContentWritten(s.out, s'.out, p) && s' == To(Did(s.(out := s'.out), t, Write), t, Writing(p, WLen)))
      || (ContentFailed(s.out, s'.out, p) && s' == To(Did(s.(out := s'.out), t, Write), t, Writing(p, WFail)))
    case _ => false
  }

  /** Telling the flush loop, and returning nil. */
  ghost predicate SignalStep(s: State, s': State, t: Tid, p: Packet, at: WriteAt) {
    match at
    case WLen =>
      if s.mem.tokens == 0 then s' == To(s, t, Writing(p, WSend))
      else s' == To(s.(out := s.out.(unsignalled := false)), t, Writing(p, WUnlock))
    case WSend =>
      s' == To(Faulted(s.(mem := s.mem.(tokens := s.mem.tokens + 1), out := s.out.(unsignalled := false)),
                       s.mem.flushChClosed), t, Writing(p, WUnlock))
    case WUnlock =>
      s' == To(Unlocked(s.(out := s.out.(accepted := s.out.accepted + [p], inflight := []))), t, Idle)
    case _ => false
  }

  ghost predicate WriteStep(s: State, s': State, t: Tid, p: Packet, at: WriteAt) {
    GuardStep(s, s', t, p, at) || PutStep(s, s', t, p, at) || SignalStep(s, s', t, p, at)
  }

  // flush

  ghost predicate FlushStep(s: State, s': State, t: Tid, at: FlushAt) {
    match at
    case FLock =>
      s.mem.lock == None && s' == To(Locked(s, t), t, Flushing(FCheck))
    case FCheck =>
      s' == To(s, t, Flushing(if s.mem.closed then FFail else FBuffered))
    case FBuffered =>
      if s.out.buffered == [] then s' == To(s, t, Flushing(FUnlock))
      else
      || s' == To(Did(s, t, SetDeadline), t, Flushing(FFlush))
      || s' == To(Did(s.(out := s.out.(ioError := true)), t, SetDeadline), t, Flushing(FFail))
    case FFlush =>
      || (Flushed(s.out, s'.out) && s' == To(Did(s.(out := s'.out), t, Write), t, Flushing(FUnlock)))
      || (FlushFailed(s.out, s'.out) && s' == To(Did(s.(out := s'.out), t, Write), t, Flushing(FFail)))
    case FUnlock =>
      s' == To(Unlocked(s), t, Idle)
    case FFail =>
      s' == To(Unlocked(s), t, AfterFlushError(t))
  }

  // close

  /** The point the winner has reached; zero for a thread that has not won. */
  function Rank(at: CloseAt): nat {
    match at
    case CWon(n) => n
    case CStream(_) => STREAMS
    case _ => 0
  }

  /** The winner moves on to point n. */
  function Advance(s: State, t: Tid, c: Caller, n: nat): State {
    To(s.(win := s.win.(phase := n)), t, Closing(c, CWon(n)))
  }

  /** The winner's call returns. */
  function Finish(s: State, t: Tid): State {
    To(s.(win := s.win.(phase := FINISHED)), t, AfterClose(t))
  }

  /** Up to the compare-and-swap, and the way out of the call that loses it. */
  ghost predicate EnterStep(s: State, s': State, t: Tid, c: Caller, at: CloseAt) {
    match at
    case CStale =>
      s.mem.staleMu == None && s' == To(s.(mem := s.mem.(staleMu := Some(t))), t, Closing(c, CSwap))
    case CSwap =>
      if s.mem.closed then s' == To(s, t, Closing(c, CLost))
      else s' == Advance(s.(mem := s.mem.(closed := true), win := Winner(0, t, c)), t, c, LOCK)
    case CLost =>
      s' == To(s.(mem := s.mem.(staleMu := None)), t, AfterClose(t))
    case _ => false
  }

  /** The winner's first critical section. */
  ghost predicate ShutStep(s: State, s': State, t: Tid, c: Caller, n: nat) {
    if n == LOCK then
      s.mem.lock == None && s' == Advance(Locked(s, t), t, c, QUEUE)
    else if n == QUEUE then
      s' == Advance(s.(mem := s.mem.(queueClosed := true)), t, c, CLOSECH)
    else
      n == UNLOCK && s' == Advance(Unlocked(s), t, c, PAST)
  }

  /** Within it, the two channels are closed. */
  ghost predicate ChannelStep(s: State, s': State, t: Tid, c: Caller, n: nat) {
    if n == CLOSECH then
      s' == Advance(Faulted(s.(mem := s.mem.(closeChClosed := true)), s.mem.closeChClosed), t, c, FLUSHCH)
    else
      n == FLUSHCH &&
      s' == Advance(Faulted(s.(mem := s.mem.(flushChClosed := true)), s.mem.flushChClosed), t, c, UNLOCK)
  }

  /** The winner waits for the loops, which the deadline in the past wakes, and moves
      what is queued to the stale packets. */
  ghost predicate WaitStep(s: State, s': State, t: Tid, c: Caller, n: nat) {
    if n == PAST then
      s' == Advance(Did(s.(past := true), t, SetDeadline), t, c, WAIT)
    else if n == WAIT then
      s.mem.wg == 0 && s' == Advance(s, t, c, EMPTY)
    else if n == EMPTY then
      s' == Advance(Did(s.(past := false), t, SetDeadline), t, c, DRAIN)
    else if n == DRAIN then
      s' == Advance(s.(inc := s.inc.(stale := s.inc.queue, queue := [])), t, c, STALEUNLOCK)
    else
      n == STALEUNLOCK && s' == Advance(s.(mem := s.mem.(staleMu := None)), t, c, STREAMS)
  }

  /** The winner calls closeSend(false) on a stream: its writePacket must find the
      connection closed. */
  ghost predicate StreamStep(s: State, s': State, t: Tid, c: Caller, at: StreamAt) {
    match at
    case SLock =>
      s.mem.lock == None && s' == To(Locked(s, t), t, Closing(c, CStream(SCheck)))
    case SCheck =>
      s' == To(Faulted(s, !s.mem.closed), t, Closing(c, CStream(SUnlock)))
    case SUnlock =>
      s' == To(Unlocked(s), t, Closing(c, CWon(STREAMS)))
  }

  /** The winner goes through the streams, flushes for the last time and returns. */
  ghost predicate FinalStep(s: State, s': State, t: Tid, c: Caller, n: nat) {
    if n == STREAMS then
      s' == To(s, t, Closing(c, CStream(SLock))) || s' == Advance(s, t, c, FINALLOCK)
    else if n == FINALLOCK then
      s.mem.lock == None && s' == Advance(Locked(s, t), t, c, FINALFLUSH)
    else if n == FINALFLUSH then
      if s.out.buffered == [] then s' == Advance(s, t, c, FINALUNLOCK)
      else
        && (Flushed(s.out, s'.out) || FlushFailed(s.out, s'.out))
        && s' == Advance(Did(s.(out := s'.out), t, Write), t, c, FINALUNLOCK)
    else if n == FINALUNLOCK then
      if c == ByRaw then s' == Finish(Unlocked(s), t)
      else s' == Advance(Unlocked(s), t, c, CONNCLOSE)
    else
      n == CONNCLOSE && s' == Finish(Did(s, t, CloseConn), t)
  }

  ghost predicate CloseStep(s: State, s': State, t: Tid, c: Caller, at: CloseAt) {
    match at
    case CWon(n) =>
      || ShutStep(s, s', t, c, n) || ChannelStep(s, s', t, c, n)
      || WaitStep(s, s', t, c, n) || FinalStep(s, s', t, c, n)
    case CStream(sat) => StreamStep(s, s', t, c, sat)
    case _ => EnterStep(s, s', t, c, at)
  }

  // ReadPacket

  ghost predicate ReadStep(s: State, s': State, t: Tid, at: ReadAt) {
    match at
    case RLoad =>
      s' == To(s, t, Reading(if s.mem.closed then RStaleLock else RPop))
    case RStaleLock =>
      s.mem.staleMu == None && s' == To(s.(mem := s.mem.(staleMu := Some(t))), t, Reading(RTake))
    case RTake =>
      if s.inc.stale != [] then
        s' == To(s.(inc := s.inc.(stale := s.inc.stale[1..], delivered := s.inc.delivered + [s.inc.stale[0]]),
                    mem := s.mem.(staleMu := None)), t, Idle)
      else
        s' == To(s.(inc := s.inc.(closedReported := true), mem := s.mem.(staleMu := None)), t, Idle)
    case RPop =>
      // a closed queue may hand out what it still holds, or refuse
      || (s.inc.queue != [] &&
          s' == To(s.(inc := s.inc.(queue := s.inc.queue[1..], delivered := s.inc.delivered + [s.inc.queue[0]])), t, Idle))
      || (s.mem.queueClosed && s' == To(s, t, Reading(RReload)))
    case RReload =>
      if s.mem.closed then s' == To(s, t, Reading(RStaleLock))
      else s' == To(Faulted(s, true), t, Idle)
  }

  // The loops between calls, and the start of API calls

  ghost predicate StartStep(s: State, s': State, t: Tid, next: Pc) {
    && s' == To(s, t, next)
    && match next
       case Writing(p, WLock) => Admissible(p, s.max)
       case Flushing(FLock) => true
       case Reading(RLoad) => true
       case Closing(c, CStale) => c != ByError
       case _ => false
  }

  /** flushLoop waits for a token; a closed channel still yields a token it holds. */
  ghost predicate FlushLoopStep(s: State, s': State, t: Tid) {
    if s.mem.tokens > 0 then
      s' == To(s.(mem := s.mem.(tokens := s.mem.tokens - 1)), t, Flushing(FLock))
    else
      s.mem.flushChClosed && s' == To(s, t, Leaving(false))
  }

  /** pingLoop: the close channel, or the ticker. */
  ghost predicate PingLoopStep(s: State, s': State, t: Tid) {
    || (s.mem.closeChClosed && s' == To(s, t, Leaving(false)))
    || s' == To(s, t, Writing(PINGPacket, WLock))
  }

  /** A decoded data packet is on record from here on. */
  function Decoding(s: State, next: Pc): State {
    if next.Pushing? then s.(inc := s.inc.(decoded := s.inc.decoded + [next.packet])) else s
  }

  /** readLoop decodes, from what it has buffered or after a read: a data packet to
      push, a PING to answer, a frame that needs neither, or an error. */
  ghost predicate ReadLoopStep(s: State, s': State, t: Tid, next: Pc) {
    && (s' == To(Decoding(s, next), t, next) || s' == To(Did(Did(Decoding(s, next), t, SetDeadline), t, Read), t, next))
    && (next == Idle || next.Pushing? || next == Writing(PONGPacket, WLock) || next == Leaving(true))
  }

  ghost predicate IdleStep(s: State, s': State, t: Tid) {
    if t == FLUSHLOOP then FlushLoopStep(s, s', t)
    else if t == PINGLOOP then PingLoopStep(s, s', t)
    else if t == READLOOP then exists next :: ReadLoopStep(s, s', t, next)
    else exists next :: StartStep(s, s', t, next)
  }

  /** incoming.Push: nothing is assumed about a push to a closed queue. */
  ghost predicate PushStep(s: State, s': State, t: Tid, p: Packet) {
    || s' == To(s.(inc := s.inc.(queue := s.inc.queue + [p], pushed := s.inc.pushed + [p])), t, Idle)
    || (s.mem.queueClosed && s' == To(s.(inc := s.inc.(refused := s.inc.refused + [p])), t, Leaving(true)))
  }

  /** wg.Done, then closeWithError or return. */
  ghost predicate LeaveStep(s: State, s': State, t: Tid, again: bool) {
    s' == To(Faulted(s.(mem := s.mem.(wg := if s.mem.wg == 0 then 0 else s.mem.wg - 1)), s.mem.wg == 0),
             t, if again then Closing(ByError, CStale) else Exited)
  }

  ghost predicate ThreadStep(s: State, s': State, t: Tid)
    requires t in s.threads
  {
    match s.threads[t]
    case Idle => IdleStep(s, s', t)
    case Writing(p, at) => WriteStep(s, s', t, p, at)
    case Flushing(at) => FlushStep(s, s', t, at)
    case Closing(c, at) => CloseStep(s, s', t, c, at)
    case Reading(at) => ReadStep(s, s', t, at)
    case Pushing(p) => PushStep(s, s', t, p)
    case Leaving(again) => LeaveStep(s, s', t, again)
    case Exited => false
  }

  /** API callers get hold of the connection when NewAsync returns it, or from a stream
      that the read loop has handed to the stream handler before that. */
  ghost predicate Spawn(s: State, s': State, t: Tid) {
    READING <= s.boot && !IsLoop(t) && t !in s.threads && s' == To(s, t, Idle)
  }

  /** NewAsync: wg.Add(1) and then go, for each loop in turn. The loops that are already
      started run meanwhile. */
  predicate BootStep(s: State, s': State) {
    if s.boot % 2 == 0 then
      s.boot < MADE && s' == s.(boot := s.boot + 1, mem := s.mem.(wg := s.mem.wg + 1))
    else
      s' == To(s.(boot := s.boot + 1), s.boot / 2, Idle)
  }

  ghost predicate Next(s: State, s': State) {
    || (exists t :: t in s.threads && ThreadStep(s, s', t))
    || (exists t :: Spawn(s, s', t))
    || BootStep(s, s')
  }

  /** A run: an initial state and steps. */
  ghost predicate IsRun(run: seq<State>) {
    && run != [] && Init(run[0])
    && forall i :: 0 <= i < |run| - 1 ==> Next(run[i], run[i + 1])
  }
}
