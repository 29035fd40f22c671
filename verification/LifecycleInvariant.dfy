/** The inductive invariant of the connection life cycle. */
module LifecycleInvariant {
  import opened MetadataCodec
  import opened Wire
  import opened Options
  import opened Lifecycle

  // What a program point says about its thread

  predicate HoldsLock(pc: Pc) {
    match pc
    case Writing(_, at) => !at.WLock? && !at.WFailed?
    case Flushing(at) => !at.FLock?
    case Closing(_, CWon(n)) => QUEUE <= n <= UNLOCK || FINALFLUSH <= n <= FINALUNLOCK
    case Closing(_, CStream(at)) => !at.SLock?
    case _ => false
  }

  predicate HoldsStale(pc: Pc) {
    match pc
    case Closing(_, CWon(n)) => n <= STALEUNLOCK
    case Closing(_, at) => at.CSwap? || at.CLost?
    case Reading(at) => at.RTake?
    case _ => false
  }

  /** Past the closed check, still inside the critical section. */
  predicate Permitted(pc: Pc) {
    match pc
    case Writing(_, at) => at.WDeadline? || at.WHeader? || at.WContent? || at.WLen? || at.WSend? || at.WUnlock?
    case Flushing(at) => at.FBuffered? || at.FFlush? || at.FUnlock?
    case _ => false
  }

  predicate Won(pc: Pc) {
    pc.Closing? && (pc.cat.CWon? || pc.cat.CStream?)
  }

  predicate MidWrite(pc: Pc) {
    pc.Writing? && (pc.wat.WContent? || pc.wat.WLen? || pc.wat.WSend?)
  }

  function OwedBy(pc: Pc): seq<byte> {
    if pc.Writing? && pc.wat.WContent? then pc.packet.content else []
  }

  function InflightBy(pc: Pc): seq<Packet> {
    if MidWrite(pc) || (pc.Writing? && pc.wat.WUnlock?) then [pc.packet] else []
  }

  /** A loop that has not called Done. */
  predicate Counted(pc: Pc) {
    !pc.Closing? && !pc.Exited?
  }

  function Count(pc: Pc): nat {
    if Counted(pc) then 1 else 0
  }

  /** The flush loop has received a token and not yet flushed. */
  predicate FlushPending(pc: Pc) {
    pc.Flushing? && (pc.fat.FLock? || pc.fat.FCheck? || pc.fat.FBuffered? || pc.fat.FFlush?)
  }

  // The invariant: what holds of each thread, and what holds of the shared state

  /** Mutual exclusion: a thread holds a mutex exactly at the points where it should. */
  predicate OwnersAt(s: State, u: Tid)
    requires u in s.threads
  {
    && (HoldsLock(s.threads[u]) <==> s.mem.lock == Some(u))
    && (HoldsStale(s.threads[u]) <==> s.mem.staleMu == Some(u))
  }

  /** A closer that has won is the winner and where the phase says; nobody is past
      the closed check once the winner has taken the mutex; a reader that looks at
      the stale packets finds them drained. */
  predicate PhaseAt(s: State, u: Tid)
    requires u in s.threads
  {
    var pc := s.threads[u];
    && (Won(pc) ==> LOCK <= s.win.phase == Rank(pc.cat) < FINISHED && s.win.thread == u && s.win.caller == pc.caller)
    && (Permitted(pc) ==> s.win.phase <= LOCK)
    && (pc == Reading(RStaleLock) ==> LOCK <= s.win.phase)
    && (pc == Reading(RTake) ==> STREAMS <= s.win.phase)
    && (pc == Reading(RReload) ==> CLOSECH <= s.win.phase)
  }

  /** Which threads can be where. */
  predicate RoleAt(s: State, u: Tid)
    requires u in s.threads
  {
    var pc := s.threads[u];
    && (pc.Pushing? ==> u == READLOOP)
    && (pc.Leaving? || pc.Exited? ==> IsLoop(u))
    && (IsLoop(u) && pc.Closing? ==> pc.caller == ByError)
    && (pc.Closing? && pc.cat == CWon(CONNCLOSE) ==> pc.caller != ByRaw)
    && (pc.Writing? ==> Sendable(pc.packet, s.max) && Bare(pc.packet))
  }

  /** A writer about to send a token has seen the channel empty. */
  predicate TokenAt(s: State, u: Tid)
    requires u in s.threads
  {
    s.threads[u].Writing? && s.threads[u].wat == WSend ==> s.mem.tokens == 0
  }

  /** Only the holder of the mutex has anything in flight. */
  predicate InFlightAt(s: State, u: Tid)
    requires u in s.threads
  {
    HoldsLock(s.threads[u]) ==>
      && s.out.owed == OwedBy(s.threads[u])
      && s.out.inflight == InflightBy(s.threads[u])
      && (s.out.unsignalled <==> MidWrite(s.threads[u]))
  }

  predicate Local(s: State, u: Tid)
    requires u in s.threads
  {
    OwnersAt(s, u) && PhaseAt(s, u) && RoleAt(s, u) && TokenAt(s, u) && InFlightAt(s, u)
  }

  /** The shared flags are functions of the winner's progress. */
  predicate Flags(m: Memory, phase: nat, past: bool) {
    && phase <= FINISHED
    && (m.closed <==> LOCK <= phase)
    && (m.queueClosed <==> CLOSECH <= phase)
    && (m.closeChClosed <==> FLUSHCH <= phase)
    && (m.flushChClosed <==> UNLOCK <= phase)
    && (past <==> WAIT <= phase <= EMPTY)
  }

  predicate WinnerExists(w: Winner, threads: map<Tid, Pc>) {
    LOCK <= w.phase < FINISHED ==> w.thread in threads && Won(threads[w.thread])
  }

  predicate HoldersExist(m: Memory, threads: map<Tid, Pc>) {
    && (m.lock.Some? ==> m.lock.value in threads)
    && (m.staleMu.Some? ==> m.staleMu.value in threads)
  }

  function CountAt(threads: map<Tid, Pc>, l: Tid): nat {
    if l in threads then Count(threads[l]) else 0
  }

  /** The wait group counts the loops that have not called Done, and one that has been
      added and is not yet started. Once the winner has waited, the flush loop and the
      read loop are gone. */
  predicate WaitGroup(wg: nat, threads: map<Tid, Pc>, phase: nat, boot: nat) {
    && wg == CountAt(threads, FLUSHLOOP) + CountAt(threads, READLOOP) + CountAt(threads, PINGLOOP) + boot % 2
    && (EMPTY <= phase ==> CountAt(threads, FLUSHLOOP) == 0 && CountAt(threads, READLOOP) == 0)
  }

  /** The loops NewAsync has started are there. Until the read loop is, nothing but an
      idle flush loop is. */
  predicate Booted(threads: map<Tid, Pc>, boot: nat) {
    && boot <= MADE
    && (FLUSHLOOP in threads <==> 2 <= boot)
    && (READLOOP in threads <==> READING <= boot)
    && (PINGLOOP in threads <==> MADE <= boot)
    && (boot < READING ==> forall t :: t in threads ==> t == FLUSHLOOP && threads[t] == Idle)
  }

  predicate Untouched(s: State) {
    s.boot < READING ==> s.win.phase == 0 && s.mem.tokens == 0
  }

  function FlushPc(threads: map<Tid, Pc>): Pc {
    if FLUSHLOOP in threads then threads[FLUSHLOOP] else Idle
  }

  /** What is on the wire and in the buffer, against what was begun and accepted. */
  ghost predicate Bytes(o: Outgoing, phase: nat, max: uint32) {
    && AllSent(o.order, max)
    && o.wire + o.buffered <= Frames(o.order)
    && o.accepted + o.inflight <= o.order
    && (!o.broken ==> o.wire + o.buffered + o.owed == Frames(o.order) && o.order == o.accepted + o.inflight)
    && (o.broken ==> o.ioError)
    && (FINALUNLOCK <= phase && !o.broken ==> o.buffered == [])
  }

  predicate NothingInFlight(lock: Option<Tid>, o: Outgoing) {
    lock == None ==> o.owed == [] && o.inflight == [] && !o.unsignalled
  }

  /** No lost flush. */
  predicate Signalled(o: Outgoing, m: Memory, flushLoop: Pc) {
    !o.ioError && !m.closed && o.buffered != [] && !o.unsignalled ==> m.tokens > 0 || FlushPending(flushLoop)
  }

  /** Packets are conserved from push to delivery. */
  predicate Reads(i: Incoming, phase: nat) {
    && i.pushed == i.delivered + i.queue + i.stale
    && (phase <= DRAIN ==> i.stale == [])
    && (STALEUNLOCK <= phase ==> i.queue == [])
    && (i.closedReported ==> STREAMS <= phase && i.stale == [])
  }

  ghost predicate Global(s: State) {
    && Flags(s.mem, s.win.phase, s.past)
    && WinnerExists(s.win, s.threads)
    && HoldersExist(s.mem, s.threads)
    && WaitGroup(s.mem.wg, s.threads, s.win.phase, s.boot)
    && Booted(s.threads, s.boot) && Untouched(s)
    && !s.fault && s.mem.tokens <= 1
    && Bytes(s.out, s.win.phase, s.max)
    && NothingInFlight(s.mem.lock, s.out)
    && Signalled(s.out, s.mem, FlushPc(s.threads))
    && Reads(s.inc, s.win.phase)
  }

  ghost predicate Inv(s: State) {
    Global(s) && forall u :: u in s.threads ==> Local(s, u)
  }

  lemma InitHolds(s: State)
    requires Init(s)
    ensures Inv(s)
  {
    assert Frames([]) == [];
  }

  // How a step of one thread may move what the other threads rely on

  predicate MutexMove(m: Option<Tid>, m': Option<Tid>, t: Tid) {
    m' == m || (m == None && m' == Some(t)) || (m == Some(t) && m' == None)
  }

  predicate PhaseMove(w: Winner, w': Winner, t: Tid, pc': Pc) {
    && (|| w' == w
        || (w.phase == 0 && w'.phase == LOCK && w'.thread == t)
        || (w.thread == w'.thread == t && LOCK <= w.phase <= w'.phase && w'.caller == w.caller))
    && (LOCK <= w'.phase < FINISHED && w'.thread == t ==> Won(pc'))
  }

  predicate InFlightMove(o: Outgoing, o': Outgoing) {
    o'.owed == o.owed && o'.inflight == o.inflight && o'.unsignalled == o.unsignalled
  }

  /** A loop's Done is the only way down, and there is no way up. */
  predicate CountMove(s: State, s': State, t: Tid, pc: Pc, pc': Pc) {
    && s'.mem.wg == s.mem.wg + (if IsLoop(t) then Count(pc') - Count(pc) else 0)
    && (IsLoop(t) ==> Count(pc') <= Count(pc))
    && (EMPTY <= s'.win.phase ==> EMPTY <= s.win.phase || s.mem.wg == 0)
  }

  predicate Move(s: State, s': State, t: Tid)
    requires t in s.threads
  {
    && t in s'.threads && s'.threads == s.threads[t := s'.threads[t]]
    && s'.max == s.max && s'.boot == s.boot
    && MutexMove(s.mem.lock, s'.mem.lock, t) && MutexMove(s.mem.staleMu, s'.mem.staleMu, t)
    && PhaseMove(s.win, s'.win, t, s'.threads[t])
    && (s.win.phase <= LOCK < s'.win.phase ==> s.mem.lock == None)
    && CountMove(s, s', t, s.threads[t], s'.threads[t])
    && (s'.mem.tokens <= s.mem.tokens || s.mem.lock == Some(t))
    && (InFlightMove(s.out, s'.out) || s.mem.lock == Some(t))
  }

  lemma OthersKept(s: State, s': State, t: Tid, u: Tid)
    requires t in s.threads && Move(s, s', t) && Local(s, t)
    requires u in s.threads && u != t && Local(s, u)
    ensures Local(s', u)
  {
  }

  lemma CountsKept(s: State, s': State, t: Tid)
    requires t in s.threads && Move(s, s', t)
    requires WaitGroup(s.mem.wg, s.threads, s.win.phase, s.boot) && Booted(s.threads, s.boot) && READING <= s.boot
    requires WinnerExists(s.win, s.threads) && HoldersExist(s.mem, s.threads)
    ensures WaitGroup(s'.mem.wg, s'.threads, s'.win.phase, s'.boot) && Booted(s'.threads, s'.boot) && Untouched(s')
    ensures WinnerExists(s'.win, s'.threads) && HoldersExist(s'.mem, s'.threads)
  {
  }

  // Each kind of step: what it does to what the others rely on, to its own thread,
  // and to the shared state

  ghost predicate Ready(s: State, t: Tid) {
    && Global(s) && READING <= s.boot && FLUSHLOOP in s.threads && t in s.threads && Local(s, t)
    && (LOCK <= s.win.phase < FINISHED && s.win.thread == t ==> Won(s.threads[t]))
    && (s.mem.staleMu == None ==> s.win.phase == 0 || STREAMS <= s.win.phase)
  }

  ghost predicate ThreadKept(s: State, s': State, t: Tid)
    requires t in s.threads
  {
    Move(s, s', t) && Local(s', t)
  }

  ghost predicate SharedKept(s: State) {
    && FLUSHLOOP in s.threads
    && Flags(s.mem, s.win.phase, s.past)
    && !s.fault && s.mem.tokens <= 1
    && NothingInFlight(s.mem.lock, s.out)
    && Bytes(s.out, s.win.phase, s.max)
    && Signalled(s.out, s.mem, s.threads[FLUSHLOOP])
    && Reads(s.inc, s.win.phase)
  }

  // The outgoing bytes

  lemma HeaderWrittenKept(o: Outgoing, o': Outgoing, p: Packet, phase: nat, max: uint32)
    requires Bytes(o, phase, max) && o.owed == [] && o.inflight == [] && phase < FINALUNLOCK
    requires Sendable(p, max) && Bare(p) && HeaderWritten(o, o', p)
    ensures Bytes(o', phase, max)
  {
    hide Frames, HeaderBytes;
    FramesSnoc(o.order, p);
    var head := HeaderBytes(PacketHeader(p));
    assert o.wire + o.buffered + [] == o.wire + o.buffered;
    assert Frames(o.order) + head + p.content == Frames(o.order) + (head + p.content);
  }

  lemma HeaderFailedKept(o: Outgoing, o': Outgoing, p: Packet, phase: nat, max: uint32)
    requires Bytes(o, phase, max) && o.owed == [] && o.inflight == [] && phase < FINALUNLOCK
    requires Sendable(p, max) && Bare(p) && HeaderFailed(o, o', p)
    ensures Bytes(o', phase, max)
  {
    hide Frames, HeaderBytes;
    if !o.broken {
      FramesSnoc(o.order, p);
      var head := HeaderBytes(PacketHeader(p));
      assert o.wire + o.buffered + [] == o.wire + o.buffered;
      assert Frames(o.order) + head + p.content == Frames(o.order) + (head + p.content);
      assert Frames(o.order) + head <= Frames(o'.order);
    }
  }

  lemma ContentKept(o: Outgoing, o': Outgoing, p: Packet, phase: nat, max: uint32)
    requires Bytes(o, phase, max) && o.owed == p.content && phase < FINALUNLOCK
    requires ContentWritten(o, o', p) || ContentFailed(o, o', p)
    ensures Bytes(o', phase, max)
  {
    hide Frames, AllSent;
    assert o'.wire + o'.buffered + [] == o'.wire + o'.buffered;
    assert o.accepted <= o.accepted + o.inflight;
  }

  lemma EmptyContentKept(o: Outgoing, p: Packet, phase: nat, max: uint32)
    requires Bytes(o, phase, max) && o.owed == p.content == []
    ensures Bytes(o.(owed := []), phase, max)
  {
  }

  lemma LaterKept(o: Outgoing, phase: nat, phase': nat, max: uint32)
    requires Bytes(o, phase, max) && (phase < FINALUNLOCK <= phase' ==> o.buffered == [])
    ensures Bytes(o, phase', max)
  {
  }

  lemma ErrorKept(o: Outgoing, phase: nat, max: uint32)
    requires Bytes(o, phase, max)
    ensures Bytes(o.(ioError := true), phase, max)
  {
  }

  lemma FlushKept(o: Outgoing, o': Outgoing, phase: nat, phase': nat, max: uint32)
    requires Bytes(o, phase, max) && o.owed == [] && (phase' < FINALUNLOCK ==> phase < FINALUNLOCK)
    requires Flushed(o, o') || FlushFailed(o, o')
    ensures Bytes(o', phase', max)
  {
    hide Frames, AllSent;
    assert o.wire + o.buffered + o.owed == o.wire + o.buffered;
    assert o'.wire + o'.buffered + o'.owed == o'.wire + o'.buffered;
    assert o.wire + o.buffered + [] == o.wire + o.buffered;
  }

  /** Flushing changes nothing about what is in flight. */
  lemma FlushInFlight(o: Outgoing, o': Outgoing)
    ensures Flushed(o, o') || FlushFailed(o, o') ==> InFlightMove(o, o')
  {
    hide FailedWrite;
  }

  lemma GuardMove(s: State, s': State, t: Tid, p: Packet, at: WriteAt)
    requires Ready(s, t) && s.threads[t] == Writing(p, at) && GuardStep(s, s', t, p, at)
    ensures Move(s, s', t)
  {
    hide Bytes, Signalled, Reads, WinnerExists, HoldersExist, WaitGroup, Booted, Untouched, RoleAt, TokenAt, InFlightAt, FailedWrite;
  }

  lemma GuardLocal(s: State, s': State, t: Tid, p: Packet, at: WriteAt)
    requires Ready(s, t) && s.threads[t] == Writing(p, at) && GuardStep(s, s', t, p, at)
    ensures t in s'.threads && Local(s', t)
  {
    hide Bytes, Signalled, Reads, WinnerExists, HoldersExist, WaitGroup, Booted, Untouched, FailedWrite;
  }

  lemma GuardShared(s: State, s': State, t: Tid, p: Packet, at: WriteAt)
    requires Ready(s, t) && s.threads[t] == Writing(p, at) && GuardStep(s, s', t, p, at)
    ensures SharedKept(s')
  {
    hide Bytes, WinnerExists, HoldersExist, WaitGroup, Booted, Untouched;
  }

  lemma PutMove(s: State, s': State, t: Tid, p: Packet, at: WriteAt)
    requires Ready(s, t) && s.threads[t] == Writing(p, at) && PutStep(s, s', t, p, at)
    ensures Move(s, s', t)
  {
    hide Bytes, Signalled, Reads, WinnerExists, HoldersExist, WaitGroup, Booted, Untouched, RoleAt, TokenAt, InFlightAt, FailedWrite;
  }

  lemma PutControl(s: State, s': State, t: Tid, p: Packet, at: WriteAt)
    requires Ready(s, t) && s.threads[t] == Writing(p, at) && PutStep(s, s', t, p, at)
    ensures t in s'.threads && OwnersAt(s', t) && PhaseAt(s', t) && RoleAt(s', t)
  {
    hide Bytes, Signalled, Reads, WinnerExists, HoldersExist, WaitGroup, Booted, Untouched, TokenAt, InFlightAt, HeaderWritten, HeaderFailed, ContentWritten, ContentFailed;
  }

  lemma PutFlight(s: State, s': State, t: Tid, p: Packet, at: WriteAt)
    requires Ready(s, t) && s.threads[t] == Writing(p, at) && PutStep(s, s', t, p, at)
    ensures t in s'.threads && TokenAt(s', t) && InFlightAt(s', t)
  {
    hide Bytes, Signalled, Reads, WinnerExists, HoldersExist, WaitGroup, Booted, Untouched, OwnersAt, PhaseAt, RoleAt, FailedWrite, Wrote;
  }

  lemma PutLocal(s: State, s': State, t: Tid, p: Packet, at: WriteAt)
    requires Ready(s, t) && s.threads[t] == Writing(p, at) && PutStep(s, s', t, p, at)
    ensures t in s'.threads && Local(s', t)
  {
    hide Ready, PutStep, OwnersAt, PhaseAt, RoleAt, TokenAt, InFlightAt;
    PutControl(s, s', t, p, at);
    PutFlight(s, s', t, p, at);
  }

  lemma PutShared(s: State, s': State, t: Tid, p: Packet, at: WriteAt)
    requires Ready(s, t) && s.threads[t] == Writing(p, at) && PutStep(s, s', t, p, at)
    ensures SharedKept(s')
  {
    hide Bytes, WinnerExists, HoldersExist, WaitGroup, Booted, Untouched, TokenAt, Wrote, FailedWrite;
    if at == WHeader {
      if HeaderWritten(s.out, s'.out, p) {
        HeaderWrittenKept(s.out, s'.out, p, s.win.phase, s.max);
      } else {
        HeaderFailedKept(s.out, s'.out, p, s.win.phase, s.max);
      }
    } else if at == WContent {
      if p.contentLength == 0 {
        EmptyContentKept(s.out, p, s.win.phase, s.max);
      } else {
        ContentKept(s.out, s'.out, p, s.win.phase, s.max);
      }
    } else {
      ErrorKept(s.out, s.win.phase, s.max);
    }
  }

  lemma SignalThread(s: State, s': State, t: Tid, p: Packet, at: WriteAt)
    requires Ready(s, t) && s.threads[t] == Writing(p, at) && SignalStep(s, s', t, p, at)
    ensures ThreadKept(s, s', t)
  {
    hide Bytes, Signalled, Reads, WinnerExists, HoldersExist, WaitGroup, Booted, Untouched;
  }

  lemma SignalShared(s: State, s': State, t: Tid, p: Packet, at: WriteAt)
    requires Ready(s, t) && s.threads[t] == Writing(p, at) && SignalStep(s, s', t, p, at)
    ensures SharedKept(s')
  {
    hide WinnerExists, HoldersExist, WaitGroup, Booted, Untouched;
  }

  lemma FlushMove(s: State, s': State, t: Tid, at: FlushAt)
    requires Ready(s, t) && s.threads[t] == Flushing(at) && FlushStep(s, s', t, at)
    ensures Move(s, s', t)
  {
    hide Bytes, Signalled, Reads, WinnerExists, HoldersExist, WaitGroup, Booted, Untouched, RoleAt, TokenAt, InFlightAt, FailedWrite;
  }

  lemma FlushControlOut(s: State, s': State, t: Tid, at: FlushAt)
    requires Ready(s, t) && s.threads[t] == Flushing(at) && FlushStep(s, s', t, at)
    requires at.FUnlock? || at.FFail?
    ensures t in s'.threads && OwnersAt(s', t) && PhaseAt(s', t) && RoleAt(s', t)
  {
    hide Bytes, Signalled, Reads, WinnerExists, HoldersExist, WaitGroup, Booted, Untouched, TokenAt, InFlightAt, Flushed, FlushFailed;
  }

  lemma FlushControlIn(s: State, s': State, t: Tid, at: FlushAt)
    requires Ready(s, t) && s.threads[t] == Flushing(at) && FlushStep(s, s', t, at)
    requires !at.FUnlock? && !at.FFail?
    ensures t in s'.threads && OwnersAt(s', t) && PhaseAt(s', t) && RoleAt(s', t)
  {
    hide Bytes, Signalled, Reads, WinnerExists, HoldersExist, WaitGroup, Booted, Untouched, TokenAt, InFlightAt, Flushed, FlushFailed;
  }

  lemma FlushControl(s: State, s': State, t: Tid, at: FlushAt)
    requires Ready(s, t) && s.threads[t] == Flushing(at) && FlushStep(s, s', t, at)
    ensures t in s'.threads && OwnersAt(s', t) && PhaseAt(s', t) && RoleAt(s', t)
  {
    hide Ready, FlushStep, OwnersAt, PhaseAt, RoleAt, TokenAt, InFlightAt;
    if at.FUnlock? || at.FFail? {
      FlushControlOut(s, s', t, at);
    } else {
      FlushControlIn(s, s', t, at);
    }
  }

  lemma FlushFlight(s: State, s': State, t: Tid, at: FlushAt)
    requires Ready(s, t) && s.threads[t] == Flushing(at) && FlushStep(s, s', t, at)
    ensures t in s'.threads && TokenAt(s', t) && InFlightAt(s', t)
  {
    FlushInFlight(s.out, s'.out);
    hide Bytes, Signalled, Reads, WinnerExists, HoldersExist, WaitGroup, Booted, Untouched, OwnersAt, PhaseAt, RoleAt, Flushed, FlushFailed;
  }

  lemma FlushLocal(s: State, s': State, t: Tid, at: FlushAt)
    requires Ready(s, t) && s.threads[t] == Flushing(at) && FlushStep(s, s', t, at)
    ensures t in s'.threads && Local(s', t)
  {
    hide Ready, FlushStep, OwnersAt, PhaseAt, RoleAt, TokenAt, InFlightAt;
    FlushControl(s, s', t, at);
    FlushFlight(s, s', t, at);
  }

  lemma FlushShared(s: State, s': State, t: Tid, at: FlushAt)
    requires Ready(s, t) && s.threads[t] == Flushing(at) && FlushStep(s, s', t, at)
    ensures SharedKept(s')
  {
    hide Bytes, WinnerExists, HoldersExist, WaitGroup, Booted, Untouched, TokenAt, FailedWrite;
    if at == FFlush {
      FlushKept(s.out, s'.out, s.win.phase, s.win.phase, s.max);
    } else if s'.out != s.out {
      ErrorKept(s.out, s.win.phase, s.max);
    }
  }

  lemma EnterMove(s: State, s': State, t: Tid, c: Caller, at: CloseAt)
    requires Ready(s, t) && s.threads[t] == Closing(c, at) && EnterStep(s, s', t, c, at)
    ensures Move(s, s', t)
  {
    hide Bytes, Signalled, Reads, WinnerExists, HoldersExist, WaitGroup, Booted, Untouched, RoleAt, TokenAt, InFlightAt, FailedWrite;
  }

  lemma EnterLocal(s: State, s': State, t: Tid, c: Caller, at: CloseAt)
    requires Ready(s, t) && s.threads[t] == Closing(c, at) && EnterStep(s, s', t, c, at)
    ensures t in s'.threads && Local(s', t)
  {
    hide Bytes, Signalled, Reads, WinnerExists, HoldersExist, WaitGroup, Booted, Untouched, FailedWrite;
  }

  lemma EnterShared(s: State, s': State, t: Tid, c: Caller, at: CloseAt)
    requires Ready(s, t) && s.threads[t] == Closing(c, at) && EnterStep(s, s', t, c, at)
    ensures SharedKept(s')
  {
    hide WinnerExists, HoldersExist, WaitGroup, Booted, Untouched;
  }

  lemma ShutMove(s: State, s': State, t: Tid, c: Caller, n: nat)
    requires Ready(s, t) && s.threads[t] == Closing(c, CWon(n)) && ShutStep(s, s', t, c, n)
    ensures Move(s, s', t)
  {
    hide Bytes, Signalled, Reads, WinnerExists, HoldersExist, WaitGroup, Booted, Untouched, RoleAt, TokenAt, InFlightAt, FailedWrite;
  }

  lemma ShutLocal(s: State, s': State, t: Tid, c: Caller, n: nat)
    requires Ready(s, t) && s.threads[t] == Closing(c, CWon(n)) && ShutStep(s, s', t, c, n)
    ensures t in s'.threads && Local(s', t)
  {
    hide Bytes, Signalled, Reads, WinnerExists, HoldersExist, WaitGroup, Booted, Untouched, FailedWrite;
  }

  lemma ShutShared(s: State, s': State, t: Tid, c: Caller, n: nat)
    requires Ready(s, t) && s.threads[t] == Closing(c, CWon(n)) && ShutStep(s, s', t, c, n)
    ensures SharedKept(s')
  {
    hide WinnerExists, HoldersExist, WaitGroup, Booted, Untouched;
  }

  lemma ChannelThread(s: State, s': State, t: Tid, c: Caller, n: nat)
    requires Ready(s, t) && s.threads[t] == Closing(c, CWon(n)) && ChannelStep(s, s', t, c, n)
    ensures ThreadKept(s, s', t)
  {
    hide Bytes, Signalled, Reads, WinnerExists, HoldersExist, WaitGroup, Booted, Untouched;
  }

  lemma ChannelShared(s: State, s': State, t: Tid, c: Caller, n: nat)
    requires Ready(s, t) && s.threads[t] == Closing(c, CWon(n)) && ChannelStep(s, s', t, c, n)
    ensures SharedKept(s')
  {
    hide WinnerExists, HoldersExist, WaitGroup, Booted, Untouched;
  }

  lemma WaitMove(s: State, s': State, t: Tid, c: Caller, n: nat)
    requires Ready(s, t) && s.threads[t] == Closing(c, CWon(n)) && WaitStep(s, s', t, c, n)
    ensures Move(s, s', t)
  {
    hide Bytes, Signalled, Reads, WinnerExists, HoldersExist, WaitGroup, Booted, Untouched, RoleAt, TokenAt, InFlightAt, FailedWrite;
  }

  lemma WaitLocal(s: State, s': State, t: Tid, c: Caller, n: nat)
    requires Ready(s, t) && s.threads[t] == Closing(c, CWon(n)) && WaitStep(s, s', t, c, n)
    ensures t in s'.threads && Local(s', t)
  {
    hide Bytes, Signalled, Reads, WinnerExists, HoldersExist, WaitGroup, Booted, Untouched, FailedWrite;
  }

  lemma WaitShared(s: State, s': State, t: Tid, c: Caller, n: nat)
    requires Ready(s, t) && s.threads[t] == Closing(c, CWon(n)) && WaitStep(s, s', t, c, n)
    ensures SharedKept(s')
  {
    hide WinnerExists, HoldersExist, WaitGroup, Booted, Untouched;
  }

  lemma StreamMove(s: State, s': State, t: Tid, c: Caller, at: StreamAt)
    requires Ready(s, t) && s.threads[t] == Closing(c, CStream(at)) && StreamStep(s, s', t, c, at)
    ensures Move(s, s', t)
  {
    hide Bytes, Signalled, Reads, WinnerExists, HoldersExist, WaitGroup, Booted, Untouched, RoleAt, TokenAt, InFlightAt, FailedWrite;
  }

  lemma StreamLocal(s: State, s': State, t: Tid, c: Caller, at: StreamAt)
    requires Ready(s, t) && s.threads[t] == Closing(c, CStream(at)) && StreamStep(s, s', t, c, at)
    ensures t in s'.threads && Local(s', t)
  {
    hide Bytes, Signalled, Reads, WinnerExists, HoldersExist, WaitGroup, Booted, Untouched, FailedWrite;
  }

  lemma StreamShared(s: State, s': State, t: Tid, c: Caller, at: StreamAt)
    requires Ready(s, t) && s.threads[t] == Closing(c, CStream(at)) && StreamStep(s, s', t, c, at)
    ensures SharedKept(s')
  {
    hide WinnerExists, HoldersExist, WaitGroup, Booted, Untouched;
  }

  lemma FinalMove(s: State, s': State, t: Tid, c: Caller, n: nat)
    requires Ready(s, t) && s.threads[t] == Closing(c, CWon(n)) && FinalStep(s, s', t, c, n)
    ensures Move(s, s', t)
  {
    hide Bytes, Signalled, Reads, WinnerExists, HoldersExist, WaitGroup, Booted, Untouched, RoleAt, TokenAt, InFlightAt, FailedWrite;
  }

  lemma FinalControlOut(s: State, s': State, t: Tid, c: Caller, n: nat)
    requires Ready(s, t) && s.threads[t] == Closing(c, CWon(n)) && FinalStep(s, s', t, c, n)
    requires n >= FINALUNLOCK
    ensures t in s'.threads && OwnersAt(s', t) && PhaseAt(s', t) && RoleAt(s', t)
  {
    hide Bytes, Signalled, Reads, WinnerExists, HoldersExist, WaitGroup, Booted, Untouched, TokenAt, InFlightAt, Flushed, FlushFailed;
  }

  lemma FinalControlIn(s: State, s': State, t: Tid, c: Caller, n: nat)
    requires Ready(s, t) && s.threads[t] == Closing(c, CWon(n)) && FinalStep(s, s', t, c, n)
    requires n < FINALUNLOCK
    ensures t in s'.threads && OwnersAt(s', t) && PhaseAt(s', t) && RoleAt(s', t)
  {
    hide Bytes, Signalled, Reads, WinnerExists, HoldersExist, WaitGroup, Booted, Untouched, TokenAt, InFlightAt, Flushed, FlushFailed;
  }

  lemma FinalControl(s: State, s': State, t: Tid, c: Caller, n: nat)
    requires Ready(s, t) && s.threads[t] == Closing(c, CWon(n)) && FinalStep(s, s', t, c, n)
    ensures t in s'.threads && OwnersAt(s', t) && PhaseAt(s', t) && RoleAt(s', t)
  {
    hide Ready, FinalStep, OwnersAt, PhaseAt, RoleAt, TokenAt, InFlightAt;
    if n >= FINALUNLOCK {
      FinalControlOut(s, s', t, c, n);
    } else {
      FinalControlIn(s, s', t, c, n);
    }
  }

  lemma FinalFlightOut(s: State, s': State, t: Tid, c: Caller, n: nat)
    requires Ready(s, t) && s.threads[t] == Closing(c, CWon(n)) && FinalStep(s, s', t, c, n)
    requires n >= FINALUNLOCK
    ensures t in s'.threads && TokenAt(s', t) && InFlightAt(s', t)
  {
    FlushInFlight(s.out, s'.out);
    hide Bytes, Signalled, Reads, WinnerExists, HoldersExist, WaitGroup, Booted, Untouched, OwnersAt, PhaseAt, RoleAt, Flushed, FlushFailed;
  }

  lemma FinalFlushFlight(s: State, s': State, t: Tid, c: Caller, n: nat)
    requires Ready(s, t) && s.threads[t] == Closing(c, CWon(n)) && FinalStep(s, s', t, c, n)
    requires n < FINALUNLOCK
    requires n == FINALFLUSH
    ensures t in s'.threads && TokenAt(s', t) && InFlightAt(s', t)
  {
    FlushInFlight(s.out, s'.out);
    hide Bytes, Signalled, Reads, WinnerExists, HoldersExist, WaitGroup, Booted, Untouched, OwnersAt, PhaseAt, RoleAt, Flushed, FlushFailed;
  }

  lemma FinalFlightRest(s: State, s': State, t: Tid, c: Caller, n: nat)
    requires Ready(s, t) && s.threads[t] == Closing(c, CWon(n)) && FinalStep(s, s', t, c, n)
    requires n < FINALUNLOCK
    requires n != FINALFLUSH
    ensures t in s'.threads && TokenAt(s', t) && InFlightAt(s', t)
  {
    FlushInFlight(s.out, s'.out);
    hide Bytes, Signalled, Reads, WinnerExists, HoldersExist, WaitGroup, Booted, Untouched, OwnersAt, PhaseAt, RoleAt, Flushed, FlushFailed;
  }

  lemma FinalFlightIn(s: State, s': State, t: Tid, c: Caller, n: nat)
    requires Ready(s, t) && s.threads[t] == Closing(c, CWon(n)) && FinalStep(s, s', t, c, n)
    requires n < FINALUNLOCK
    ensures t in s'.threads && TokenAt(s', t) && InFlightAt(s', t)
  {
    hide Ready, FinalStep, OwnersAt, PhaseAt, RoleAt, TokenAt, InFlightAt;
    if n == FINALFLUSH {
      FinalFlushFlight(s, s', t, c, n);
    } else {
      FinalFlightRest(s, s', t, c, n);
    }
  }

  lemma FinalFlight(s: State, s': State, t: Tid, c: Caller, n: nat)
    requires Ready(s, t) && s.threads[t] == Closing(c, CWon(n)) && FinalStep(s, s', t, c, n)
    ensures t in s'.threads && TokenAt(s', t) && InFlightAt(s', t)
  {
    hide Ready, FinalStep, OwnersAt, PhaseAt, RoleAt, TokenAt, InFlightAt;
    if n >= FINALUNLOCK {
      FinalFlightOut(s, s', t, c, n);
    } else {
      FinalFlightIn(s, s', t, c, n);
    }
  }

  lemma FinalLocal(s: State, s': State, t: Tid, c: Caller, n: nat)
    requires Ready(s, t) && s.threads[t] == Closing(c, CWon(n)) && FinalStep(s, s', t, c, n)
    ensures t in s'.threads && Local(s', t)
  {
    hide Ready, FinalStep, OwnersAt, PhaseAt, RoleAt, TokenAt, InFlightAt;
    FinalControl(s, s', t, c, n);
    FinalFlight(s, s', t, c, n);
  }

  lemma FinalShared(s: State, s': State, t: Tid, c: Caller, n: nat)
    requires Ready(s, t) && s.threads[t] == Closing(c, CWon(n)) && FinalStep(s, s', t, c, n)
    ensures SharedKept(s')
  {
    hide Bytes, WinnerExists, HoldersExist, WaitGroup, Booted, Untouched, TokenAt, FailedWrite;
    if n == FINALFLUSH && s.out.buffered != [] {
      FlushKept(s.out, s'.out, s.win.phase, s'.win.phase, s.max);
    } else {
      LaterKept(s.out, s.win.phase, s'.win.phase, s.max);
    }
  }

  lemma ReadMove(s: State, s': State, t: Tid, at: ReadAt)
    requires Ready(s, t) && s.threads[t] == Reading(at) && ReadStep(s, s', t, at)
    ensures Move(s, s', t)
  {
    hide Bytes, Signalled, Reads, WinnerExists, HoldersExist, WaitGroup, Booted, Untouched, RoleAt, TokenAt, InFlightAt, FailedWrite;
  }

  lemma ReadLocal(s: State, s': State, t: Tid, at: ReadAt)
    requires Ready(s, t) && s.threads[t] == Reading(at) && ReadStep(s, s', t, at)
    ensures t in s'.threads && Local(s', t)
  {
    hide Bytes, Signalled, Reads, WinnerExists, HoldersExist, WaitGroup, Booted, Untouched, FailedWrite;
  }

  lemma ReadShared(s: State, s': State, t: Tid, at: ReadAt)
    requires Ready(s, t) && s.threads[t] == Reading(at) && ReadStep(s, s', t, at)
    ensures SharedKept(s')
  {
    hide Bytes, WinnerExists, HoldersExist, WaitGroup, Booted, Untouched, OwnersAt, TokenAt, InFlightAt, RoleAt;
  }

  lemma ReadLoopMove(s: State, s': State, t: Tid)
    requires Ready(s, t) && s.threads[t] == Idle && IdleStep(s, s', t)
    requires IsLoop(t)
    requires t == READLOOP
    ensures Move(s, s', t)
  {
    hide Bytes, Signalled, Reads, WinnerExists, HoldersExist, WaitGroup, Booted, Untouched, RoleAt, TokenAt, InFlightAt, FailedWrite;
  }

  lemma OtherLoopMove(s: State, s': State, t: Tid)
    requires Ready(s, t) && s.threads[t] == Idle && IdleStep(s, s', t)
    requires IsLoop(t)
    requires t != READLOOP
    ensures Move(s, s', t)
  {
    hide Bytes, Signalled, Reads, WinnerExists, HoldersExist, WaitGroup, Booted, Untouched, RoleAt, TokenAt, InFlightAt, FailedWrite;
  }

  lemma LoopMove(s: State, s': State, t: Tid)
    requires Ready(s, t) && s.threads[t] == Idle && IdleStep(s, s', t)
    requires IsLoop(t)
    ensures Move(s, s', t)
  {
    hide Ready, IdleStep, Move;
    if t == READLOOP {
      ReadLoopMove(s, s', t);
    } else {
      OtherLoopMove(s, s', t);
    }
  }

  lemma StartMove(s: State, s': State, t: Tid)
    requires Ready(s, t) && s.threads[t] == Idle && IdleStep(s, s', t)
    requires !IsLoop(t)
    ensures Move(s, s', t)
  {
    hide Bytes, Signalled, Reads, WinnerExists, HoldersExist, WaitGroup, Booted, Untouched, RoleAt, TokenAt, InFlightAt, FailedWrite;
  }

  lemma IdleMove(s: State, s': State, t: Tid)
    requires Ready(s, t) && s.threads[t] == Idle && IdleStep(s, s', t)
    ensures Move(s, s', t)
  {
    hide Ready, IdleStep, Move;
    if IsLoop(t) {
      LoopMove(s, s', t);
    } else {
      StartMove(s, s', t);
    }
  }

  lemma ReadLoopControl(s: State, s': State, t: Tid)
    requires Ready(s, t) && s.threads[t] == Idle && IdleStep(s, s', t)
    requires IsLoop(t)
    requires t == READLOOP
    ensures t in s'.threads && OwnersAt(s', t) && PhaseAt(s', t) && RoleAt(s', t)
  {
    hide Bytes, Signalled, Reads, WinnerExists, HoldersExist, WaitGroup, Booted, Untouched, TokenAt, InFlightAt;
  }

  lemma OtherLoopControl(s: State, s': State, t: Tid)
    requires Ready(s, t) && s.threads[t] == Idle && IdleStep(s, s', t)
    requires IsLoop(t)
    requires t != READLOOP
    ensures t in s'.threads && OwnersAt(s', t) && PhaseAt(s', t) && RoleAt(s', t)
  {
    hide Bytes, Signalled, Reads, WinnerExists, HoldersExist, WaitGroup, Booted, Untouched, TokenAt, InFlightAt;
  }

  lemma LoopControl(s: State, s': State, t: Tid)
    requires Ready(s, t) && s.threads[t] == Idle && IdleStep(s, s', t)
    requires IsLoop(t)
    ensures t in s'.threads && OwnersAt(s', t) && PhaseAt(s', t) && RoleAt(s', t)
  {
    hide Ready, IdleStep, OwnersAt, PhaseAt, RoleAt, TokenAt, InFlightAt;
    if t == READLOOP {
      ReadLoopControl(s, s', t);
    } else {
      OtherLoopControl(s, s', t);
    }
  }

  lemma StartControl(s: State, s': State, t: Tid)
    requires Ready(s, t) && s.threads[t] == Idle && IdleStep(s, s', t)
    requires !IsLoop(t)
    ensures t in s'.threads && OwnersAt(s', t) && PhaseAt(s', t) && RoleAt(s', t)
  {
    hide Bytes, Signalled, Reads, WinnerExists, HoldersExist, WaitGroup, Booted, Untouched, TokenAt, InFlightAt;
  }

  lemma IdleControl(s: State, s': State, t: Tid)
    requires Ready(s, t) && s.threads[t] == Idle && IdleStep(s, s', t)
    ensures t in s'.threads && OwnersAt(s', t) && PhaseAt(s', t) && RoleAt(s', t)
  {
    hide Ready, IdleStep, OwnersAt, PhaseAt, RoleAt, TokenAt, InFlightAt;
    if IsLoop(t) {
      LoopControl(s, s', t);
    } else {
      StartControl(s, s', t);
    }
  }

  lemma IdleFlight(s: State, s': State, t: Tid)
    requires Ready(s, t) && s.threads[t] == Idle && IdleStep(s, s', t)
    ensures t in s'.threads && TokenAt(s', t) && InFlightAt(s', t)
  {
    hide Bytes, Signalled, Reads, WinnerExists, HoldersExist, WaitGroup, Booted, Untouched, OwnersAt, PhaseAt, RoleAt;
  }

  lemma IdleLocal(s: State, s': State, t: Tid)
    requires Ready(s, t) && s.threads[t] == Idle && IdleStep(s, s', t)
    ensures t in s'.threads && Local(s', t)
  {
    hide Ready, IdleStep, OwnersAt, PhaseAt, RoleAt, TokenAt, InFlightAt;
    IdleControl(s, s', t);
    IdleFlight(s, s', t);
  }

  lemma ReadLoopShared(s: State, s': State, t: Tid)
    requires Ready(s, t) && s.threads[t] == Idle && IdleStep(s, s', t)
    requires t == READLOOP
    ensures SharedKept(s')
  {
    hide Bytes, WinnerExists, HoldersExist, WaitGroup, Booted, Untouched;
  }

  lemma OtherIdleShared(s: State, s': State, t: Tid)
    requires Ready(s, t) && s.threads[t] == Idle && IdleStep(s, s', t)
    requires t != READLOOP
    ensures SharedKept(s')
  {
    hide Bytes, WinnerExists, HoldersExist, WaitGroup, Booted, Untouched;
  }

  lemma IdleShared(s: State, s': State, t: Tid)
    requires Ready(s, t) && s.threads[t] == Idle && IdleStep(s, s', t)
    ensures SharedKept(s')
  {
    hide IdleStep, Ready, SharedKept;
    if t == READLOOP {
      ReadLoopShared(s, s', t);
    } else {
      OtherIdleShared(s, s', t);
    }
  }

  lemma PushThread(s: State, s': State, t: Tid, p: Packet)
    requires Ready(s, t) && s.threads[t] == Pushing(p) && PushStep(s, s', t, p)
    ensures ThreadKept(s, s', t)
  {
    hide Bytes, Signalled, Reads, WinnerExists, HoldersExist, WaitGroup, Booted, Untouched;
  }

  lemma PushShared(s: State, s': State, t: Tid, p: Packet)
    requires Ready(s, t) && s.threads[t] == Pushing(p) && PushStep(s, s', t, p)
    ensures SharedKept(s')
  {
    hide Bytes, WinnerExists, HoldersExist;
  }

  lemma LeaveThread(s: State, s': State, t: Tid, again: bool)
    requires Ready(s, t) && s.threads[t] == Leaving(again) && LeaveStep(s, s', t, again)
    ensures ThreadKept(s, s', t)
  {
    hide Bytes, Signalled, Reads, WinnerExists, HoldersExist;
  }

  lemma LeaveShared(s: State, s': State, t: Tid, again: bool)
    requires Ready(s, t) && s.threads[t] == Leaving(again) && LeaveStep(s, s', t, again)
    ensures SharedKept(s')
  {
    hide Bytes, WinnerExists, HoldersExist;
  }

}
