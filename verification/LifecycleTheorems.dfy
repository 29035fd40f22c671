/** What the invariant gives: properties of every run of an Async connection. */
module LifecycleTheorems {
  import opened MetadataCodec
  import opened Wire
  import opened Options
  import opened Lifecycle
  import opened LifecycleInvariant

  // The invariant is inductive

  lemma ReadyAt(s: State, t: Tid)
    requires Inv(s) && t in s.threads && READING <= s.boot
    ensures Ready(s, t)
  {
    hide Bytes, Signalled, Reads, RoleAt, TokenAt, InFlightAt;
    assert Local(s, t);
    if LOCK <= s.win.phase < FINISHED {
      assert Local(s, s.win.thread);
    }
  }

  lemma WriteKept(s: State, s': State, t: Tid, p: Packet, at: WriteAt)
    requires Ready(s, t) && s.threads[t] == Writing(p, at) && WriteStep(s, s', t, p, at)
    ensures ThreadKept(s, s', t) && SharedKept(s')
  {
    hide Ready, Move, Local, SharedKept, GuardStep, PutStep, SignalStep;
    if GuardStep(s, s', t, p, at) {
      GuardMove(s, s', t, p, at); GuardLocal(s, s', t, p, at); GuardShared(s, s', t, p, at);
    } else if PutStep(s, s', t, p, at) {
      PutMove(s, s', t, p, at); PutLocal(s, s', t, p, at); PutShared(s, s', t, p, at);
    } else {
      SignalThread(s, s', t, p, at); SignalShared(s, s', t, p, at);
    }
  }

  lemma CloseKept(s: State, s': State, t: Tid, c: Caller, at: CloseAt)
    requires Ready(s, t) && s.threads[t] == Closing(c, at) && CloseStep(s, s', t, c, at)
    ensures ThreadKept(s, s', t) && SharedKept(s')
  {
    hide Ready, Move, Local, SharedKept;
    hide EnterStep, ShutStep, ChannelStep, WaitStep, StreamStep, FinalStep;
    match at
    case CWon(n) =>
      if ShutStep(s, s', t, c, n) {
        ShutMove(s, s', t, c, n); ShutLocal(s, s', t, c, n); ShutShared(s, s', t, c, n);
      } else if ChannelStep(s, s', t, c, n) {
        ChannelThread(s, s', t, c, n); ChannelShared(s, s', t, c, n);
      } else if WaitStep(s, s', t, c, n) {
        WaitMove(s, s', t, c, n); WaitLocal(s, s', t, c, n); WaitShared(s, s', t, c, n);
      } else {
        FinalMove(s, s', t, c, n); FinalLocal(s, s', t, c, n); FinalShared(s, s', t, c, n);
      }
    case CStream(sat) =>
      StreamMove(s, s', t, c, sat); StreamLocal(s, s', t, c, sat); StreamShared(s, s', t, c, sat);
    case _ =>
      EnterMove(s, s', t, c, at); EnterLocal(s, s', t, c, at); EnterShared(s, s', t, c, at);
  }

  lemma StepKept(s: State, s': State, t: Tid)
    requires Ready(s, t) && ThreadStep(s, s', t)
    ensures ThreadKept(s, s', t) && SharedKept(s')
  {
    hide Move, Local, SharedKept, Global;
    hide IdleStep, WriteStep, FlushStep, CloseStep, ReadStep, PushStep, LeaveStep;
    match s.threads[t]
    case Idle =>
      IdleMove(s, s', t); IdleLocal(s, s', t); IdleShared(s, s', t);
    case Writing(p, at) =>
      WriteKept(s, s', t, p, at);
    case Flushing(at) =>
      FlushMove(s, s', t, at); FlushLocal(s, s', t, at); FlushShared(s, s', t, at);
    case Closing(c, at) =>
      CloseKept(s, s', t, c, at);
    case Reading(at) =>
      ReadMove(s, s', t, at); ReadLocal(s, s', t, at); ReadShared(s, s', t, at);
    case Pushing(p) =>
      PushThread(s, s', t, p); PushShared(s, s', t, p);
    case Leaving(again) =>
      LeaveThread(s, s', t, again); LeaveShared(s, s', t, again);
    case Exited =>
  }

  /** No loop moves before the read loop is started: there is no token to take. */
  lemma NoStepYet(s: State, s': State, t: Tid)
    requires Inv(s) && t in s.threads && ThreadStep(s, s', t)
    ensures READING <= s.boot
  {
    hide Bytes, Signalled, Reads, Local;
    assert s.boot < READING ==> t == FLUSHLOOP;
  }

  lemma ThreadStepKeepsInv(s: State, s': State, t: Tid)
    requires Inv(s) && t in s.threads && ThreadStep(s, s', t)
    ensures Inv(s')
  {
    NoStepYet(s, s', t);
    hide ThreadStep, Local, Bytes, Signalled, Reads, Flags, NothingInFlight;
    hide WaitGroup, Booted, Untouched, WinnerExists, HoldersExist, Ready;
    ReadyAt(s, t);
    StepKept(s, s', t);
    CountsKept(s, s', t);
    forall u | u in s'.threads
      ensures Local(s', u)
    {
      if u != t {
        OthersKept(s, s', t, u);
      }
    }
  }

  lemma SpawnLocal(s: State, s': State, t: Tid, u: Tid)
    requires Spawn(s, s', t) && HoldersExist(s.mem, s.threads)
    requires u == t || (u in s.threads && Local(s, u))
    ensures Local(s', u)
  {
  }

  lemma SpawnKeepsInv(s: State, s': State, t: Tid)
    requires Inv(s) && Spawn(s, s', t)
    ensures Inv(s')
  {
    hide Bytes, Signalled, Reads, Flags, Local;
    forall u | u in s'.threads
      ensures Local(s', u)
    {
      SpawnLocal(s, s', t, u);
    }
  }

  lemma BootLocal(s: State, s': State, u: Tid)
    requires BootStep(s, s') && HoldersExist(s.mem, s.threads) && Booted(s.threads, s.boot)
    requires u in s.threads ==> Local(s, u)
    requires u in s'.threads
    ensures Local(s', u)
  {
  }

  lemma BootKeepsInv(s: State, s': State)
    requires Inv(s) && BootStep(s, s')
    ensures Inv(s')
  {
    hide Bytes, Reads, Local;
    forall u | u in s'.threads
      ensures Local(s', u)
    {
      BootLocal(s, s', u);
    }
  }

  /** Every step of every thread keeps the invariant. */
  lemma NextKeepsInv(s: State, s': State)
    requires Inv(s) && Next(s, s')
    ensures Inv(s')
  {
    hide Inv, ThreadStep, Spawn, BootStep;
    if t :| t in s.threads && ThreadStep(s, s', t) {
      ThreadStepKeepsInv(s, s', t);
    } else if t :| Spawn(s, s', t) {
      SpawnKeepsInv(s, s', t);
    } else {
      BootKeepsInv(s, s');
    }
  }

  lemma {:induction false} RunKeepsInv(run: seq<State>, i: nat)
    requires IsRun(run) && i < |run|
    ensures Inv(run[i])
  {
    hide Inv, Next;
    if i == 0 {
      InitHolds(run[0]);
    } else {
      RunKeepsInv(run, i - 1);
      assert Next(run[i - 1], run[(i - 1) + 1]);
      NextKeepsInv(run[i - 1], run[i]);
    }
  }

  // Which steps reach the outgoing side

  /** The thread's next step may write, signal, or operate on the connection. */
  predicate Active(pc: Pc, t: Tid) {
    Permitted(pc) || Won(pc) || (t == READLOOP && pc.Idle?)
  }

  /** A step that leaves the writer, the wire and the connection alone. */
  predicate Passive(s: State, s': State) {
    s'.out == s.out && s'.ops == s.ops && (s'.win == s.win || !s.mem.closed)
  }

  lemma GuardPassive(s: State, s': State, t: Tid, p: Packet, at: WriteAt)
    requires GuardStep(s, s', t, p, at)
    ensures Passive(s, s')
  {
  }

  lemma FlushPassive(s: State, s': State, t: Tid, at: FlushAt)
    requires FlushStep(s, s', t, at) && !Permitted(Flushing(at))
    ensures Passive(s, s')
  {
    hide Flushed, FlushFailed;
  }

  lemma EnterPassive(s: State, s': State, t: Tid, c: Caller, at: CloseAt)
    requires EnterStep(s, s', t, c, at)
    ensures Passive(s, s')
  {
  }

  lemma ReadPassive(s: State, s': State, t: Tid, at: ReadAt)
    requires ReadStep(s, s', t, at)
    ensures Passive(s, s')
  {
  }

  lemma IdlePassive(s: State, s': State, t: Tid)
    requires IdleStep(s, s', t) && t != READLOOP
    ensures Passive(s, s')
  {
  }

  lemma PushPassive(s: State, s': State, t: Tid, p: Packet)
    requires PushStep(s, s', t, p)
    ensures Passive(s, s')
  {
  }

  lemma LeavePassive(s: State, s': State, t: Tid, again: bool)
    requires LeaveStep(s, s', t, again)
    ensures Passive(s, s')
  {
  }

  /** Every step of a thread that is not active is. */
  lemma PassiveStep(s: State, s': State, t: Tid)
    requires t in s.threads && ThreadStep(s, s', t) && !Active(s.threads[t], t)
    ensures Passive(s, s')
  {
    hide Passive, WriteStep, GuardStep, FlushStep, EnterStep, ReadStep, IdleStep, PushStep, LeaveStep;
    hide ShutStep, ChannelStep, WaitStep, StreamStep, FinalStep;
    match s.threads[t]
    case Idle => IdlePassive(s, s', t);
    case Writing(p, at) => OnlyGuard(s, s', t, p, at); GuardPassive(s, s', t, p, at);
    case Flushing(at) => FlushPassive(s, s', t, at);
    case Closing(c, at) => EnterPassive(s, s', t, c, at);
    case Reading(at) => ReadPassive(s, s', t, at);
    case Pushing(p) => PushPassive(s, s', t, p);
    case Leaving(again) => LeavePassive(s, s', t, again);
    case Exited =>
  }

  lemma OnlyGuard(s: State, s': State, t: Tid, p: Packet, at: WriteAt)
    requires WriteStep(s, s', t, p, at) && !Permitted(Writing(p, at))
    ensures GuardStep(s, s', t, p, at)
  {
  }

  /** Once the winning close has returned nobody is active. */
  lemma FinishedIsPassive(s: State, t: Tid)
    requires Inv(s) && s.win.phase == FINISHED && t in s.threads
    ensures !Active(s.threads[t], t)
  {
    hide Bytes, Signalled, Reads;
    assert Local(s, t);
  }

  lemma FinishedStep(s: State, s': State)
    requires Inv(s) && s.win.phase == FINISHED && Next(s, s')
    ensures s'.out == s.out && s'.ops == s.ops && s'.win == s.win
  {
    hide Inv, ThreadStep;
    if t :| t in s.threads && ThreadStep(s, s', t) {
      FinishedIsPassive(s, t);
      PassiveStep(s, s', t);
      FlagsHold(s);
    }
  }

  lemma FlagsHold(s: State)
    requires Inv(s)
    ensures Flags(s.mem, s.win.phase, s.past)
  {
  }

  // Raw handoff

  /** Once the call that won close has returned, no thread ever again reads, writes,
      sets a deadline on or closes the connection, and the wire stays as it is. */
  lemma {:induction false} Handoff(run: seq<State>, i: nat, j: nat)
    requires IsRun(run) && i <= j < |run| && run[i].win.phase == FINISHED
    ensures run[j].ops == run[i].ops && run[j].out == run[i].out && run[j].win == run[i].win
    decreases j - i
  {
    hide Next, Init;
    if i < j {
      RunKeepsInv(run, j - 1);
      Handoff(run, i, j - 1);
      assert Next(run[j - 1], run[(j - 1) + 1]);
      FinishedStep(run[j - 1], run[j]);
    }
  }

  // Who closes the underlying connection

  predicate NoClose(ops: seq<(Tid, Op)>) {
    forall k :: 0 <= k < |ops| ==> ops[k].1 != CloseConn
  }

  /** The connection is closed exactly by a winner that is not Raw, as the very last
      operation on it; a connection handed out by the winning Raw was never closed. */
  predicate CloseLog(s: State) {
    if s.win.phase == FINISHED && s.win.caller != ByRaw then
      s.ops != [] && s.ops[|s.ops| - 1] == (s.win.thread, CloseConn) && NoClose(s.ops[..|s.ops| - 1])
    else NoClose(s.ops)
  }

  /** ops' is ops and some more operations of thread t, none of them a close. */
  predicate Adds(ops: seq<(Tid, Op)>, ops': seq<(Tid, Op)>, t: Tid) {
    && |ops| <= |ops'|
    && (forall k :: 0 <= k < |ops| ==> ops'[k] == ops[k])
    && (forall k :: |ops| <= k < |ops'| ==> ops'[k].1 != CloseConn && ops'[k].0 == t)
  }

  /** What every step but the last one of a closing winner does to the log: it only
      appends, under its own name, it appends no close, and it finishes nothing but a
      Raw. */
  predicate Logged(s: State, s': State, t: Tid, pc: Pc) {
    && (s'.ops == s.ops || Adds(s.ops, s'.ops, t))
    && (s'.win.phase == FINISHED && s.win.phase != FINISHED ==>
          pc == Closing(ByRaw, CWon(FINALUNLOCK)) && s'.win.caller == s.win.caller)
    && (s'.mem.wg == s.mem.wg || pc.Leaving?)
  }

  lemma ShutLogged(s: State, s': State, t: Tid, c: Caller, n: nat)
    requires ShutStep(s, s', t, c, n)
    ensures Logged(s, s', t, Closing(c, CWon(n)))
  {
    hide Adds;
  }

  lemma ChannelLogged(s: State, s': State, t: Tid, c: Caller, n: nat)
    requires ChannelStep(s, s', t, c, n)
    ensures Logged(s, s', t, Closing(c, CWon(n)))
  {
    hide Adds;
  }

  lemma WaitLogged(s: State, s': State, t: Tid, c: Caller, n: nat)
    requires WaitStep(s, s', t, c, n)
    ensures Logged(s, s', t, Closing(c, CWon(n)))
  {
  }

  lemma FlushedLogged(s: State, s': State, t: Tid, c: Caller, n: nat)
    requires FinalStep(s, s', t, c, n) && n != CONNCLOSE
    requires n == FINALFLUSH
    ensures Logged(s, s', t, Closing(c, CWon(n)))
  {
    hide Flushed, FlushFailed;
  }

  lemma FinalRestLogged(s: State, s': State, t: Tid, c: Caller, n: nat)
    requires FinalStep(s, s', t, c, n) && n != CONNCLOSE
    requires n != FINALFLUSH
    ensures Logged(s, s', t, Closing(c, CWon(n)))
  {
    hide Flushed, FlushFailed;
  }

  lemma FinalLogged(s: State, s': State, t: Tid, c: Caller, n: nat)
    requires FinalStep(s, s', t, c, n) && n != CONNCLOSE
    ensures Logged(s, s', t, Closing(c, CWon(n)))
  {
    hide FinalStep, Logged;
    if n == FINALFLUSH {
      FlushedLogged(s, s', t, c, n);
    } else {
      FinalRestLogged(s, s', t, c, n);
    }
  }

  lemma EnterLogged(s: State, s': State, t: Tid, c: Caller, at: CloseAt)
    requires EnterStep(s, s', t, c, at)
    ensures Logged(s, s', t, Closing(c, at))
  {
    hide Adds;
  }

  lemma StreamLogged(s: State, s': State, t: Tid, c: Caller, at: StreamAt)
    requires StreamStep(s, s', t, c, at)
    ensures Logged(s, s', t, Closing(c, CStream(at)))
  {
    hide Adds;
  }

  lemma CloseLogged(s: State, s': State, t: Tid, c: Caller, at: CloseAt)
    requires CloseStep(s, s', t, c, at) && at != CWon(CONNCLOSE)
    ensures Logged(s, s', t, Closing(c, at))
  {
    hide ShutStep, ChannelStep, WaitStep, FinalStep, EnterStep, StreamStep, Logged;
    match at
    case CWon(n) =>
      if FinalStep(s, s', t, c, n) {
        FinalLogged(s, s', t, c, n);
      } else if WaitStep(s, s', t, c, n) {
        WaitLogged(s, s', t, c, n);
      } else if ChannelStep(s, s', t, c, n) {
        ChannelLogged(s, s', t, c, n);
      } else {
        ShutLogged(s, s', t, c, n);
      }
    case CStream(sat) => StreamLogged(s, s', t, c, sat);
    case _ => EnterLogged(s, s', t, c, at);
  }

  lemma GuardLogged(s: State, s': State, t: Tid, p: Packet, at: WriteAt)
    requires GuardStep(s, s', t, p, at)
    ensures Logged(s, s', t, Writing(p, at))
  {
    hide Adds;
  }

  lemma PutLogged(s: State, s': State, t: Tid, p: Packet, at: WriteAt)
    requires PutStep(s, s', t, p, at)
    ensures Logged(s, s', t, Writing(p, at))
  {
    hide HeaderWritten, HeaderFailed, ContentWritten, ContentFailed;
  }

  lemma SignalLogged(s: State, s': State, t: Tid, p: Packet, at: WriteAt)
    requires SignalStep(s, s', t, p, at)
    ensures Logged(s, s', t, Writing(p, at))
  {
    hide Adds;
  }

  lemma WriteLogged(s: State, s': State, t: Tid, p: Packet, at: WriteAt)
    requires WriteStep(s, s', t, p, at)
    ensures Logged(s, s', t, Writing(p, at))
  {
    hide Logged, GuardStep, PutStep, SignalStep;
    if GuardStep(s, s', t, p, at) {
      GuardLogged(s, s', t, p, at);
    } else if PutStep(s, s', t, p, at) {
      PutLogged(s, s', t, p, at);
    } else {
      SignalLogged(s, s', t, p, at);
    }
  }

  lemma FlushLogged(s: State, s': State, t: Tid, at: FlushAt)
    requires FlushStep(s, s', t, at)
    ensures Logged(s, s', t, Flushing(at))
  {
    hide Flushed, FlushFailed;
  }

  lemma ReadLoopLogged(s: State, s': State, t: Tid)
    requires IdleStep(s, s', t)
    requires t == READLOOP
    ensures Logged(s, s', t, Idle)
  {
  }

  lemma OtherIdleLogged(s: State, s': State, t: Tid)
    requires IdleStep(s, s', t)
    requires t != READLOOP
    ensures Logged(s, s', t, Idle)
  {
  }

  lemma IdleLogged(s: State, s': State, t: Tid)
    requires IdleStep(s, s', t)
    ensures Logged(s, s', t, Idle)
  {
    hide IdleStep, Logged;
    if t == READLOOP {
      ReadLoopLogged(s, s', t);
    } else {
      OtherIdleLogged(s, s', t);
    }
  }

  lemma ReadLogged(s: State, s': State, t: Tid, at: ReadAt)
    requires ReadStep(s, s', t, at)
    ensures Logged(s, s', t, Reading(at))
  {
    hide Adds;
  }

  lemma PushLogged(s: State, s': State, t: Tid, p: Packet)
    requires PushStep(s, s', t, p)
    ensures Logged(s, s', t, Pushing(p))
  {
    hide Adds;
  }

  lemma LeaveLogged(s: State, s': State, t: Tid, again: bool)
    requires LeaveStep(s, s', t, again)
    ensures Logged(s, s', t, Leaving(again))
  {
    hide Adds;
  }

  lemma StepLogged(s: State, s': State, t: Tid)
    requires t in s.threads && ThreadStep(s, s', t)
    requires s.threads[t].Closing? ==> s.threads[t].cat != CWon(CONNCLOSE)
    ensures Logged(s, s', t, s.threads[t])
  {
    hide CloseStep, WriteStep, FlushStep, IdleStep, ReadStep, PushStep, LeaveStep, Logged;
    match s.threads[t]
    case Closing(c, at) => CloseLogged(s, s', t, c, at);
    case Writing(p, at) => WriteLogged(s, s', t, p, at);
    case Flushing(at) => FlushLogged(s, s', t, at);
    case Idle => IdleLogged(s, s', t);
    case Reading(at) => ReadLogged(s, s', t, at);
    case Pushing(p) => PushLogged(s, s', t, p);
    case Leaving(again) => LeaveLogged(s, s', t, again);
    case Exited =>
  }

  lemma CloseLogKept(s: State, s': State)
    requires Inv(s) && CloseLog(s) && Next(s, s')
    ensures CloseLog(s')
  {
    hide Inv, ThreadStep;
    if s.win.phase == FINISHED {
      FinishedStep(s, s');
    } else if t :| t in s.threads && ThreadStep(s, s', t) {
      WinnerIs(s, t);
      if s.threads[t].Closing? && s.threads[t].cat == CWon(CONNCLOSE) {
        ConnCloseStep(s, s', t);
        assert s'.ops[..|s'.ops| - 1] == s.ops;
      } else {
        StepLogged(s, s', t);
      }
    }
  }

  lemma WinnerIs(s: State, t: Tid)
    requires Inv(s) && t in s.threads
    ensures var pc := s.threads[t];
      Won(pc) ==> s.win.thread == t && s.win.caller == pc.caller && (pc.cat == CWon(CONNCLOSE) ==> pc.caller != ByRaw)
  {
    hide Bytes, Signalled, Reads;
    assert Local(s, t);
  }

  lemma ConnCloseStep(s: State, s': State, t: Tid)
    requires t in s.threads && ThreadStep(s, s', t)
    requires s.threads[t].Closing? && s.threads[t].cat == CWon(CONNCLOSE)
    ensures s'.ops == s.ops + [(t, CloseConn)] && s'.win == s.win.(phase := FINISHED)
    ensures s'.mem == s.mem
  {
  }

  lemma {:induction false} CloseLogHolds(run: seq<State>, i: nat)
    requires IsRun(run) && i < |run|
    ensures CloseLog(run[i])
  {
    hide Next;
    if i > 0 {
      CloseLogHolds(run, i - 1);
      RunKeepsInv(run, i - 1);
      assert Next(run[i - 1], run[(i - 1) + 1]);
      CloseLogKept(run[i - 1], run[i]);
    }
  }

  /** Raw handoff: when the Raw call that won has returned, the connection it hands
      out has never been closed, and is never again touched by the library. */
  lemma RawHandoff(run: seq<State>, i: nat, j: nat)
    requires IsRun(run) && i <= j < |run|
    requires run[i].win.phase == FINISHED && run[i].win.caller == ByRaw
    ensures NoClose(run[j].ops) && run[j].ops == run[i].ops && run[j].out.wire == run[i].out.wire
  {
    hide Next, Init;
    Handoff(run, i, j);
    CloseLogHolds(run, j);
  }

  // Graceful close

  lemma FinishedNothingInFlight(s: State)
    requires Inv(s) && s.win.phase == FINISHED
    ensures s.out.owed == [] && s.out.inflight == []
  {
    hide Bytes, Signalled, Reads;
    if s.mem.lock.Some? {
      assert Local(s, s.mem.lock.value);
    }
  }

  /** Graceful close loses nothing: if no write failed, then when the winning close
      has returned the wire is exactly the frames of the packets whose writePacket
      returned nil, in lock order. */
  lemma GracefulClose(run: seq<State>, i: nat)
    requires IsRun(run) && i < |run|
    requires run[i].win.phase == FINISHED && !run[i].out.broken
    ensures run[i].out.buffered == []
    ensures run[i].out.wire == Frames(run[i].out.accepted) && AllSent(run[i].out.accepted, run[i].max)
  {
    hide Frames, AllSent;
    RunKeepsInv(run, i);
    FinishedNothingInFlight(run[i]);
    var o := run[i].out;
    assert Bytes(o, FINISHED, run[i].max);
    assert o.wire + [] + [] == o.wire && o.accepted + [] == o.accepted;
  }

  /** At every moment of every run, I/O errors or not, the wire is a prefix of whole
      frames of packets in lock order, and the accepted packets come first. */
  lemma WireIsFramed(run: seq<State>, i: nat)
    requires IsRun(run) && i < |run|
    ensures run[i].out.wire <= Frames(run[i].out.order)
    ensures run[i].out.accepted <= run[i].out.order && AllSent(run[i].out.order, run[i].max)
  {
    hide Frames, AllSent;
    RunKeepsInv(run, i);
    var o := run[i].out;
    assert o.wire <= o.wire + o.buffered && o.accepted <= o.accepted + o.inflight;
  }

  /** The deadline in the past is never set while a write or flush is in progress,
      including the winner's own last flush. */
  lemma PastDeadlineHitsNoWrite(run: seq<State>, i: nat, t: Tid)
    requires IsRun(run) && i < |run| && run[i].past && t in run[i].threads
    ensures !Permitted(run[i].threads[t])
    ensures run[i].threads[t].Closing? ==> run[i].threads[t].cat != CWon(FINALFLUSH)
  {
    hide Bytes, Signalled, Reads;
    RunKeepsInv(run, i);
    assert Local(run[i], t);
  }

  // Flushing, channels and the wait group

  /** No lost flush: while the connection is open and error-free and nobody holds the
      mutex, buffered bytes mean a token in the channel or a flush loop that has taken
      one and not yet flushed. */
  lemma NoLostFlush(run: seq<State>, i: nat)
    requires IsRun(run) && i < |run|
    requires !run[i].mem.closed && !run[i].out.ioError && run[i].mem.lock == None && run[i].out.buffered != []
    ensures FLUSHLOOP in run[i].threads
    ensures run[i].mem.tokens == 1 || FlushPending(run[i].threads[FLUSHLOOP])
  {
    hide Bytes, Reads, Local;
    RunKeepsInv(run, i);
  }

  /** Channel safety: no thread is ever about to send on a closed channel or to close
      one twice, and the flush channel never holds more than one token. */
  lemma ChannelSafety(run: seq<State>, i: nat, t: Tid)
    requires IsRun(run) && i < |run| && t in run[i].threads
    ensures var s := run[i]; var pc := s.threads[t];
      && !s.fault && s.mem.tokens <= 1
      && (pc.Writing? && pc.wat == WSend ==> !s.mem.flushChClosed && s.mem.tokens == 0)
      && (pc.Closing? && pc.cat == CWon(CLOSECH) ==> !s.mem.closeChClosed)
      && (pc.Closing? && pc.cat == CWon(FLUSHCH) ==> !s.mem.flushChClosed)
  {
    hide Bytes, Signalled, Reads;
    RunKeepsInv(run, i);
    assert Local(run[i], t);
  }

  predicate LeftAt(s: State, l: Tid) {
    l in s.threads && !Counted(s.threads[l])
  }

  /** The wait group is the number of loops still running, and of one that NewAsync has
      added and not yet started. Once the winner has waited, the flush loop and the read
      loop are gone, and no loop can touch the connection but the winner: not even a ping
      loop that was added too late for the wait. */
  lemma WaitGroupDiscipline(run: seq<State>, i: nat)
    requires IsRun(run) && i < |run|
    ensures var s := run[i];
      && s.mem.wg == CountAt(s.threads, FLUSHLOOP) + CountAt(s.threads, READLOOP) + CountAt(s.threads, PINGLOOP)
           + s.boot % 2
      && (EMPTY <= s.win.phase ==> LeftAt(s, FLUSHLOOP) && LeftAt(s, READLOOP))
    ensures forall l :: l in run[i].threads && IsLoop(l) && EMPTY <= run[i].win.phase ==>
      (Active(run[i].threads[l], l) ==> l == run[i].win.thread)
  {
    RunKeepsInv(run, i);
    CountHolds(run[i]);
    hide Inv, IsRun;
    if EMPTY <= run[i].win.phase {
      WaitedIsQuiet(run[i]);
      forall l | l in run[i].threads && IsLoop(l) && Active(run[i].threads[l], l)
        ensures l == run[i].win.thread
      {
        QuietIsSilent(run[i], l);
      }
    }
  }

  lemma CountHolds(s: State)
    requires Inv(s)
    ensures WaitGroup(s.mem.wg, s.threads, s.win.phase, s.boot) && Booted(s.threads, s.boot) && Untouched(s)
    ensures s.mem.closed <==> LOCK <= s.win.phase
  {
    hide Bytes, Signalled, Reads, Local, WinnerExists, HoldersExist, NothingInFlight;
  }

  /** No loop is at work: each has called Done, but for a ping loop that is started or
      still to be started on a closed connection, and has not passed the closed check. */
  predicate Quiet(s: State) {
    && LeftAt(s, FLUSHLOOP) && LeftAt(s, READLOOP)
    && (LeftAt(s, PINGLOOP) || (s.mem.closed && (PINGLOOP in s.threads ==> !Permitted(s.threads[PINGLOOP]))))
  }

  /** A zero count that no later loop can undo: NewAsync has returned, or the connection
      is closed. */
  predicate FinalZero(s: State) {
    s.mem.wg == 0 && (s.boot == MADE || s.mem.closed)
  }

  lemma ZeroIsQuiet(s: State)
    requires Inv(s) && FinalZero(s)
    ensures Quiet(s)
  {
    hide Inv;
    CountHolds(s);
  }

  lemma WaitedIsQuiet(s: State)
    requires Inv(s) && EMPTY <= s.win.phase
    ensures Quiet(s)
  {
    CountHolds(s);
    if PINGLOOP in s.threads {
      assert Local(s, PINGLOOP);
    }
  }

  lemma QuietIsSilent(s: State, t: Tid)
    requires Inv(s) && t in s.threads && Active(s.threads[t], t)
    requires (IsLoop(t) && Quiet(s)) || EMPTY <= s.win.phase
    ensures Won(s.threads[t]) && s.win.thread == t && LOCK <= s.win.phase
  {
    CountHolds(s);
    hide Bytes, Signalled, Reads, WinnerExists, HoldersExist, NothingInFlight;
    assert Local(s, t);
    assert t == FLUSHLOOP || t == READLOOP || t == PINGLOOP || !IsLoop(t);
  }

  lemma GuardStaysOut(s: State, s': State, t: Tid, p: Packet, at: WriteAt)
    requires GuardStep(s, s', t, p, at) && s.mem.closed
    ensures t in s'.threads && !Permitted(s'.threads[t])
  {
  }

  lemma FlushStaysOut(s: State, s': State, t: Tid, at: FlushAt)
    requires FlushStep(s, s', t, at) && s.mem.closed && !Permitted(Flushing(at))
    ensures t in s'.threads && !Permitted(s'.threads[t])
  {
    hide Flushed, FlushFailed;
  }

  lemma IdleStaysOut(s: State, s': State, t: Tid)
    requires IdleStep(s, s', t)
    ensures t in s'.threads && !Permitted(s'.threads[t])
  {
  }

  /** A thread that has not passed the closed check never does once the connection is
      closed. */
  lemma StaysOut(s: State, s': State, t: Tid)
    requires t in s.threads && ThreadStep(s, s', t) && s.mem.closed
    requires Counted(s.threads[t]) && !Permitted(s.threads[t])
    ensures t in s'.threads && !Permitted(s'.threads[t])
  {
    hide WriteStep, GuardStep, FlushStep, IdleStep, CloseStep, Permitted;
    match s.threads[t]
    case Writing(p, at) => OnlyGuard(s, s', t, p, at); GuardStaysOut(s, s', t, p, at);
    case Flushing(at) => FlushStaysOut(s, s', t, at);
    case Idle => IdleStaysOut(s, s', t);
    case Reading(_) => NotPermitted(s'.threads[t]);
    case Pushing(_) => NotPermitted(s'.threads[t]);
    case Leaving(_) => NotPermitted(s'.threads[t]);
    case _ =>
  }

  lemma NotPermitted(pc: Pc)
    ensures !pc.Writing? && !pc.Flushing? ==> !Permitted(pc)
  {
  }

  lemma PhaseGrows(s: State, s': State)
    requires Inv(s) && Next(s, s')
    ensures s.win.phase <= s'.win.phase && (LOCK <= s.win.phase ==> s'.win.thread == s.win.thread)
    ensures s.threads.Keys <= s'.threads.Keys
  {
    hide Inv, ThreadStep, Local, SharedKept;
    if t :| t in s.threads && ThreadStep(s, s', t) {
      NoStepYet(s, s', t);
      ReadyAt(s, t);
      StepKept(s, s', t);
    }
  }

  lemma PingStaysOut(s: State, s': State)
    requires Inv(s) && Next(s, s') && s.mem.closed && !LeftAt(s, PINGLOOP)
    requires PINGLOOP in s.threads ==> !Permitted(s.threads[PINGLOOP])
    ensures PINGLOOP in s'.threads ==> !Permitted(s'.threads[PINGLOOP])
  {
    hide Inv, ThreadStep, Local, SharedKept;
    if t :| t in s.threads && ThreadStep(s, s', t) {
      if t == PINGLOOP {
        StaysOut(s, s', t);
      } else {
        NoStepYet(s, s', t);
        ReadyAt(s, t);
        StepKept(s, s', t);
      }
    }
  }

  lemma QuietStays(s: State, s': State)
    requires Inv(s) && Quiet(s) && Next(s, s')
    ensures Quiet(s')
  {
    hide Inv, Next, Permitted;
    CountStep(s, s', FLUSHLOOP);
    CountStep(s, s', READLOOP);
    CountStep(s, s', PINGLOOP);
    NextKeepsInv(s, s');
    CountHolds(s);
    CountHolds(s');
    PhaseGrows(s, s');
    if !LeftAt(s, PINGLOOP) {
      PingStaysOut(s, s');
    }
  }

  /** What a step appends to the log is the doing of an active thread. */
  lemma Appended(s: State, s': State)
    requires Inv(s) && Next(s, s')
    ensures s.ops <= s'.ops
    ensures forall k :: |s.ops| <= k < |s'.ops| ==> s'.ops[k].0 in s.threads && Active(s.threads[s'.ops[k].0], s'.ops[k].0)
  {
    hide Inv, ThreadStep, Active;
    if t :| t in s.threads && ThreadStep(s, s', t) {
      if !Active(s.threads[t], t) {
        PassiveStep(s, s', t);
      } else if s.threads[t].Closing? && s.threads[t].cat == CWon(CONNCLOSE) {
        ConnCloseStep(s, s', t);
      } else {
        StepLogged(s, s', t);
      }
    }
  }

  /** Operations of s' that s has not seen are the winner's, if they are a loop's or
      nobody else is left. */
  predicate OnlyWinner(s: State, s': State) {
    forall k :: |s.ops| <= k < |s'.ops| && (IsLoop(s'.ops[k].0) || EMPTY <= s.win.phase) ==>
      s'.ops[k].0 == s'.win.thread && LOCK <= s'.win.phase
  }

  lemma OnlyWinnerStep(r: State, s: State, s': State)
    requires Inv(s) && Quiet(s) && Next(s, s') && r.ops <= s.ops && OnlyWinner(r, s) && r.win.phase <= s.win.phase
    ensures Quiet(s') && r.ops <= s'.ops && OnlyWinner(r, s') && r.win.phase <= s'.win.phase
  {
    hide Inv, Next, Quiet, Active;
    QuietStays(s, s');
    PhaseGrows(s, s');
    Appended(s, s');
    forall k | |r.ops| <= k < |s'.ops| && (IsLoop(s'.ops[k].0) || EMPTY <= r.win.phase)
      ensures s'.ops[k].0 == s'.win.thread && LOCK <= s'.win.phase
    {
      if k < |s.ops| {
        assert s'.ops[k] == s.ops[k];
      } else {
        QuietIsSilent(s, s'.ops[k].0);
      }
    }
  }

  /** After a zero count that is final, in every continuation, no loop but a winning closer
      operates on the connection; and once the winner has waited, nobody else at all does,
      late ping loop included. */
  lemma {:induction false} LoopsSilent(run: seq<State>, i: nat, j: nat)
    requires IsRun(run) && i <= j < |run| && (FinalZero(run[i]) || EMPTY <= run[i].win.phase)
    ensures Quiet(run[j]) && run[i].ops <= run[j].ops && OnlyWinner(run[i], run[j])
    ensures run[i].win.phase <= run[j].win.phase
    decreases j - i
  {
    hide Next, Init, Inv, Quiet, OnlyWinner;
    if i < j {
      LoopsSilent(run, i, j - 1);
      RunKeepsInv(run, j - 1);
      assert Next(run[j - 1], run[(j - 1) + 1]);
      OnlyWinnerStep(run[i], run[j - 1], run[j]);
    } else {
      RunKeepsInv(run, i);
      if FinalZero(run[i]) {
        ZeroIsQuiet(run[i]);
      } else {
        WaitedIsQuiet(run[i]);
      }
      NoNews(run[i]);
    }
  }

  lemma NoNews(s: State)
    ensures OnlyWinner(s, s)
  {
  }

  /** Passing the Wait needs a zero count. */
  lemma WaitPassed(s: State, s': State)
    requires Inv(s) && Next(s, s') && s.win.phase == WAIT && s'.win.phase == EMPTY
    ensures s.mem.wg == 0
  {
    hide Inv, ThreadStep, Local, SharedKept;
    if t :| t in s.threads && ThreadStep(s, s', t) {
      NoStepYet(s, s', t);
      ReadyAt(s, t);
      StepKept(s, s', t);
    }
  }

  /** What the winner's Wait covers: always the flush loop and the read loop, and all
      three loops if and only if NewAsync had added the ping loop by then. */
  lemma WaitCovers(run: seq<State>, i: nat)
    requires IsRun(run) && i + 1 < |run| && run[i].win.phase == WAIT && run[i + 1].win.phase == EMPTY
    ensures LeftAt(run[i], FLUSHLOOP) && LeftAt(run[i], READLOOP)
    ensures LeftAt(run[i], PINGLOOP) <==> ADDED <= run[i].boot
  {
    RunKeepsInv(run, i);
    assert Next(run[i], run[i + 1]);
    hide IsRun, Next, Inv;
    WaitPassed(run[i], run[i + 1]);
    ZeroCount(run[i]);
  }

  lemma ZeroCount(s: State)
    requires Inv(s) && s.mem.wg == 0 && LOCK <= s.win.phase
    ensures LeftAt(s, FLUSHLOOP) && LeftAt(s, READLOOP)
    ensures LeftAt(s, PINGLOOP) <==> ADDED <= s.boot
  {
    hide Bytes, Signalled, Reads, Local, Flags, WinnerExists, HoldersExist, NothingInFlight;
  }

  /** The step from s to s' is loop l's call of Done. */
  ghost predicate Leaves(s: State, s': State, l: Tid) {
    l in s.threads && s.threads[l].Leaving? && ThreadStep(s, s', l)
  }

  /** Only Done takes a loop out of the count. */
  lemma OwnCountStep(s: State, s': State, l: Tid)
    requires l in s.threads && Ready(s, l) && IsLoop(l) && ThreadStep(s, s', l)
    ensures LeftAt(s', l) <==> LeftAt(s, l) || s.threads[l].Leaving?
  {
    hide Ready, Local, SharedKept, ThreadStep, PhaseMove, MutexMove, InFlightMove, Adds;
    StepKept(s, s', l);
    if s.threads[l].Leaving? {
      LeavingStep(s, s', l);
    } else if s.threads[l].Closing? && s.threads[l].cat == CWon(CONNCLOSE) {
      ConnCloseStep(s, s', l);
    } else {
      StepLogged(s, s', l);
    }
  }

  lemma LeavingStep(s: State, s': State, l: Tid)
    requires l in s.threads && s.threads[l].Leaving? && ThreadStep(s, s', l)
    ensures LeftAt(s', l)
  {
  }

  lemma CountStep(s: State, s': State, l: Tid)
    requires Inv(s) && Next(s, s') && IsLoop(l)
    ensures LeftAt(s', l) <==> LeftAt(s, l) || Leaves(s, s', l)
  {
    hide Inv, ThreadStep, Local, SharedKept, PhaseMove, MutexMove, InFlightMove, CountMove;
    if Leaves(s, s', l) {
      LeavingStep(s, s', l);
    } else if t :| t in s.threads && ThreadStep(s, s', t) {
      NoStepYet(s, s', t);
      ReadyAt(s, t);
      if t == l {
        OwnCountStep(s, s', l);
      } else {
        StepKept(s, s', t);
      }
    } else if BootStep(s, s') {
      BootedHolds(s);
    }
  }

  lemma BootedHolds(s: State)
    requires Inv(s)
    ensures Booted(s.threads, s.boot)
  {
  }

  ghost predicate LeavesAt(run: seq<State>, k: nat, l: Tid) {
    k + 1 < |run| && Leaves(run[k], run[k + 1], l)
  }

  /** Each loop calls Done exactly once before it counts as gone: it has left if and
      only if one of the steps so far was its Done. */
  lemma {:induction false} DoneOnce(run: seq<State>, i: nat, l: Tid)
    requires IsRun(run) && i < |run| && IsLoop(l)
    ensures LeftAt(run[i], l) <==> exists k: nat :: k < i && LeavesAt(run, k, l)
    ensures forall k: nat, m: nat :: k < i && m < i && LeavesAt(run, k, l) && LeavesAt(run, m, l) ==> k == m
  {
    hide Next, Leaves, LeftAt, Init, Inv;
    if i == 0 {
      NobodyLeftYet(run[0], l);
    } else {
      DoneOnce(run, i - 1, l);
      RunKeepsInv(run, i - 1);
      assert Next(run[i - 1], run[(i - 1) + 1]);
      CountStep(run[i - 1], run[i], l);
      LeavesIsPresent(run[i - 1], run[i], l);
      assert LeavesAt(run, i - 1, l) <==> Leaves(run[i - 1], run[i], l);
    }
  }

  lemma NobodyLeftYet(s: State, l: Tid)
    requires Init(s)
    ensures !LeftAt(s, l)
  {
  }

  lemma LeavesIsPresent(s: State, s': State, l: Tid)
    ensures Leaves(s, s', l) ==> !LeftAt(s, l)
  {
  }

  // Reads across close

  /** Nothing is lost, duplicated or reordered between push and delivery, at any step. */
  lemma ReadsConserved(run: seq<State>, i: nat)
    requires IsRun(run) && i < |run|
    ensures run[i].inc.pushed == run[i].inc.delivered + run[i].inc.queue + run[i].inc.stale
    ensures run[i].inc.queue == [] || run[i].inc.stale == []
  {
    hide Bytes, Signalled, Local;
    RunKeepsInv(run, i);
  }

  lemma ReportedStep(s: State, s': State, t: Tid)
    requires Ready(s, t) && s.inc.closedReported && ThreadStep(s, s', t)
    ensures s'.inc == s.inc
  {
    hide Bytes, Signalled, WriteStep, EnterStep, ShutStep, ChannelStep, FinalStep, StreamStep;
    match s.threads[t]
    case Closing(c, at) => SameIncoming(s, s', t, c, at);
    case Writing(p, at) => SameIncomingWrite(s, s', t, p, at);
    case _ =>
  }

  lemma SameIncoming(s: State, s': State, t: Tid, c: Caller, at: CloseAt)
    requires CloseStep(s, s', t, c, at) && at != CWon(DRAIN)
    ensures s'.inc == s.inc
  {
    hide FinalStep, ShutStep, ChannelStep, WaitStep, StreamStep, EnterStep;
    if at.CWon? {
      if FinalStep(s, s', t, c, at.point) {
        SameIncomingFinal(s, s', t, c, at.point);
      } else if ShutStep(s, s', t, c, at.point) {
        SameIncomingShut(s, s', t, c, at.point);
      } else {
        SameIncomingWait(s, s', t, c, at.point);
      }
    } else {
      SameIncomingEnter(s, s', t, c, at);
    }
  }

  lemma SameIncomingShut(s: State, s': State, t: Tid, c: Caller, n: nat)
    requires ShutStep(s, s', t, c, n)
    ensures s'.inc == s.inc
  {
  }

  lemma SameIncomingWait(s: State, s': State, t: Tid, c: Caller, n: nat)
    requires (ChannelStep(s, s', t, c, n) || WaitStep(s, s', t, c, n)) && n != DRAIN
    ensures s'.inc == s.inc
  {
  }

  lemma SameIncomingEnter(s: State, s': State, t: Tid, c: Caller, at: CloseAt)
    requires !at.CWon? && (if at.CStream? then StreamStep(s, s', t, c, at.sat) else EnterStep(s, s', t, c, at))
    ensures s'.inc == s.inc
  {
  }

  lemma SameIncomingFinal(s: State, s': State, t: Tid, c: Caller, n: nat)
    requires FinalStep(s, s', t, c, n)
    ensures s'.inc == s.inc
  {
    hide Flushed, FlushFailed;
  }

  lemma SameIncomingWrite(s: State, s': State, t: Tid, p: Packet, at: WriteAt)
    requires WriteStep(s, s', t, p, at)
    ensures s'.inc == s.inc
  {
    hide HeaderWritten, HeaderFailed, ContentWritten, ContentFailed;
  }

  /** A reader that is told the connection is closed is told so only after every packet
      ever pushed has been delivered, and nothing is pushed or delivered afterwards. */
  lemma {:induction false} ClosedIsFinal(run: seq<State>, i: nat, j: nat)
    requires IsRun(run) && i <= j < |run| && run[i].inc.closedReported
    ensures run[i].inc.pushed == run[i].inc.delivered
    ensures run[j].inc == run[i].inc
    decreases j - i
  {
    hide Next, Init, Bytes, Signalled, Local;
    RunKeepsInv(run, i);
    if i < j {
      ClosedIsFinal(run, i, j - 1);
      RunKeepsInv(run, j - 1);
      assert Next(run[j - 1], run[(j - 1) + 1]);
      ReportedNext(run[j - 1], run[j]);
    }
  }

  lemma ReportedNext(s: State, s': State)
    requires Inv(s) && Next(s, s') && s.inc.closedReported
    ensures s'.inc == s.inc
  {
    hide Inv, ThreadStep, Ready;
    if t :| t in s.threads && ThreadStep(s, s', t) {
      NoStepYet(s, s', t);
      ReadyAt(s, t);
      ReportedStep(s, s', t);
    }
  }
}
