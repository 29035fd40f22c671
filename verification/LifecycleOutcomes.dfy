/** What the calls on an Async connection come to: that the read loop pushes every packet
    it decodes, that calls fail only for a cause, and that a failure closes the
    connection. */
module LifecycleOutcomes {
  import opened MetadataCodec
  import opened Wire
  import opened Options
  import opened Lifecycle
  import opened LifecycleInvariant
  import opened LifecycleTheorems

  // Every decoded packet is pushed

  function ReadPc(threads: map<Tid, Pc>): Pc {
    if READLOOP in threads then threads[READLOOP] else Idle
  }

  /** The packet the read loop is about to push. */
  function Offered(pc: Pc): seq<Packet> {
    if pc.Pushing? then [pc.packet] else []
  }

  /** The loop has failed and will push no more. */
  predicate Failed(pc: Pc) {
    pc == Leaving(true) || pc.Closing? || pc.Exited?
  }

  predicate Handed(i: Incoming, queueClosed: bool, pc: Pc) {
    && i.decoded == i.pushed + Offered(pc) + i.refused
    && (i.refused != [] ==> queueClosed && Failed(pc) && |i.refused| == 1)
  }

  /** A step of a thread that is not pushing and does not begin to. */
  predicate Elsewhere(s: State, s': State, t: Tid) {
    && s'.inc.decoded == s.inc.decoded && s'.inc.pushed == s.inc.pushed && s'.inc.refused == s.inc.refused
    && (s.mem.queueClosed ==> s'.mem.queueClosed)
    && t in s'.threads && s'.threads == s.threads[t := s'.threads[t]] && !s'.threads[t].Pushing?
  }

  lemma GuardElsewhere(s: State, s': State, t: Tid, p: Packet, at: WriteAt)
    requires GuardStep(s, s', t, p, at)
    ensures Elsewhere(s, s', t)
  {
  }

  lemma PutElsewhere(s: State, s': State, t: Tid, p: Packet, at: WriteAt)
    requires PutStep(s, s', t, p, at)
    ensures Elsewhere(s, s', t)
  {
    hide HeaderWritten, HeaderFailed, ContentWritten, ContentFailed;
  }

  lemma SignalElsewhere(s: State, s': State, t: Tid, p: Packet, at: WriteAt)
    requires SignalStep(s, s', t, p, at)
    ensures Elsewhere(s, s', t)
  {
  }

  lemma FlushElsewhere(s: State, s': State, t: Tid, at: FlushAt)
    requires FlushStep(s, s', t, at)
    ensures Elsewhere(s, s', t)
  {
    hide Flushed, FlushFailed;
  }

  lemma EnterElsewhere(s: State, s': State, t: Tid, c: Caller, at: CloseAt)
    requires EnterStep(s, s', t, c, at)
    ensures Elsewhere(s, s', t) && (IsLoop(t) ==> Failed(s'.threads[t]))
  {
  }

  lemma ShutElsewhere(s: State, s': State, t: Tid, c: Caller, n: nat)
    requires ShutStep(s, s', t, c, n)
    ensures Elsewhere(s, s', t) && Failed(s'.threads[t])
  {
  }

  lemma ChannelElsewhere(s: State, s': State, t: Tid, c: Caller, n: nat)
    requires ChannelStep(s, s', t, c, n)
    ensures Elsewhere(s, s', t) && Failed(s'.threads[t])
  {
  }

  lemma WaitBefore(s: State, s': State, t: Tid, c: Caller, n: nat)
    requires WaitStep(s, s', t, c, n)
    requires n <= EMPTY
    ensures Elsewhere(s, s', t) && Failed(s'.threads[t])
  {
  }

  lemma WaitAfter(s: State, s': State, t: Tid, c: Caller, n: nat)
    requires WaitStep(s, s', t, c, n)
    requires n > EMPTY
    ensures Elsewhere(s, s', t) && Failed(s'.threads[t])
  {
  }

  lemma WaitElsewhere(s: State, s': State, t: Tid, c: Caller, n: nat)
    requires WaitStep(s, s', t, c, n)
    ensures Elsewhere(s, s', t) && Failed(s'.threads[t])
  {
    hide WaitStep, Elsewhere, Failed;
    if n <= EMPTY {
      WaitBefore(s, s', t, c, n);
    } else {
      WaitAfter(s, s', t, c, n);
    }
  }

  lemma StreamElsewhere(s: State, s': State, t: Tid, c: Caller, at: StreamAt)
    requires StreamStep(s, s', t, c, at)
    ensures Elsewhere(s, s', t) && Failed(s'.threads[t])
  {
  }

  lemma FinalFlushes(s: State, s': State, t: Tid, c: Caller, n: nat)
    requires FinalStep(s, s', t, c, n)
    requires n <= FINALFLUSH
    requires n == FINALFLUSH
    ensures Elsewhere(s, s', t) && (IsLoop(t) ==> Failed(s'.threads[t]))
  {
    hide Flushed, FlushFailed;
  }

  lemma FinalLeads(s: State, s': State, t: Tid, c: Caller, n: nat)
    requires FinalStep(s, s', t, c, n)
    requires n <= FINALFLUSH
    requires n != FINALFLUSH
    ensures Elsewhere(s, s', t) && (IsLoop(t) ==> Failed(s'.threads[t]))
  {
    hide Flushed, FlushFailed;
  }

  lemma FinalBefore(s: State, s': State, t: Tid, c: Caller, n: nat)
    requires FinalStep(s, s', t, c, n)
    requires n <= FINALFLUSH
    ensures Elsewhere(s, s', t) && (IsLoop(t) ==> Failed(s'.threads[t]))
  {
    hide FinalStep, Elsewhere, Failed;
    if n == FINALFLUSH {
      FinalFlushes(s, s', t, c, n);
    } else {
      FinalLeads(s, s', t, c, n);
    }
  }

  lemma FinalAfter(s: State, s': State, t: Tid, c: Caller, n: nat)
    requires FinalStep(s, s', t, c, n)
    requires n > FINALFLUSH
    ensures Elsewhere(s, s', t) && (IsLoop(t) ==> Failed(s'.threads[t]))
  {
    hide Flushed, FlushFailed;
  }

  lemma FinalElsewhere(s: State, s': State, t: Tid, c: Caller, n: nat)
    requires FinalStep(s, s', t, c, n)
    ensures Elsewhere(s, s', t) && (IsLoop(t) ==> Failed(s'.threads[t]))
  {
    hide FinalStep, Elsewhere, Failed;
    if n <= FINALFLUSH {
      FinalBefore(s, s', t, c, n);
    } else {
      FinalAfter(s, s', t, c, n);
    }
  }

  lemma CloseElsewhere(s: State, s': State, t: Tid, c: Caller, at: CloseAt)
    requires CloseStep(s, s', t, c, at)
    ensures Elsewhere(s, s', t) && (IsLoop(t) ==> Failed(s'.threads[t]))
  {
    hide Elsewhere, Failed, EnterStep, ShutStep, ChannelStep, WaitStep, StreamStep, FinalStep;
    match at
    case CWon(n) =>
      if FinalStep(s, s', t, c, n) {
        FinalElsewhere(s, s', t, c, n);
      } else if WaitStep(s, s', t, c, n) {
        WaitElsewhere(s, s', t, c, n);
      } else if ShutStep(s, s', t, c, n) {
        ShutElsewhere(s, s', t, c, n);
      } else {
        ChannelElsewhere(s, s', t, c, n);
      }
    case CStream(sat) => StreamElsewhere(s, s', t, c, sat);
    case _ => EnterElsewhere(s, s', t, c, at);
  }

  lemma ReadElsewhere(s: State, s': State, t: Tid, at: ReadAt)
    requires ReadStep(s, s', t, at)
    ensures Elsewhere(s, s', t)
  {
  }

  lemma IdleElsewhere(s: State, s': State, t: Tid)
    requires IdleStep(s, s', t) && t != READLOOP
    ensures Elsewhere(s, s', t)
  {
  }

  lemma LeaveElsewhere(s: State, s': State, t: Tid, again: bool)
    requires LeaveStep(s, s', t, again)
    ensures Elsewhere(s, s', t) && Failed(s'.threads[t])
  {
  }

  /** Only the read loop decodes and pushes. */
  lemma OnlyReadLoop(s: State, s': State, t: Tid)
    requires t in s.threads && ThreadStep(s, s', t)
    requires !s.threads[t].Pushing? && !(t == READLOOP && s.threads[t].Idle?)
    ensures Elsewhere(s, s', t)
    ensures IsLoop(t) && Failed(s.threads[t]) ==> Failed(s'.threads[t])
  {
    hide Elsewhere, WriteStep, FlushStep, CloseStep, ReadStep, IdleStep, LeaveStep, PushStep;
    match s.threads[t]
    case Writing(p, at) => WriteElsewhere(s, s', t, p, at);
    case Flushing(at) => FlushElsewhere(s, s', t, at);
    case Closing(c, at) => CloseElsewhere(s, s', t, c, at);
    case Reading(at) => ReadElsewhere(s, s', t, at);
    case Idle => IdleElsewhere(s, s', t);
    case Leaving(again) => LeaveElsewhere(s, s', t, again);
    case _ =>
  }

  lemma WriteElsewhere(s: State, s': State, t: Tid, p: Packet, at: WriteAt)
    requires WriteStep(s, s', t, p, at)
    ensures Elsewhere(s, s', t)
  {
    hide Elsewhere, GuardStep, PutStep, SignalStep;
    if GuardStep(s, s', t, p, at) {
      GuardElsewhere(s, s', t, p, at);
    } else if PutStep(s, s', t, p, at) {
      PutElsewhere(s, s', t, p, at);
    } else {
      SignalElsewhere(s, s', t, p, at);
    }
  }

  lemma ReadLoopHands(s: State, s': State, next: Pc)
    requires READLOOP in s.threads && s.threads[READLOOP].Idle? && Handed(s.inc, s.mem.queueClosed, Idle)
    requires ReadLoopStep(s, s', READLOOP, next)
    ensures Handed(s'.inc, s'.mem.queueClosed, ReadPc(s'.threads))
  {
    var i := s.inc;
    assert i.refused == [] && i.pushed + [] + [] == i.pushed;
    if next.Pushing? {
      assert i.pushed + [next.packet] + [] == i.pushed + [next.packet];
    }
  }

  lemma PushHands(s: State, s': State, p: Packet)
    requires READLOOP in s.threads && s.threads[READLOOP] == Pushing(p) && Handed(s.inc, s.mem.queueClosed, Pushing(p))
    requires PushStep(s, s', READLOOP, p)
    ensures Handed(s'.inc, s'.mem.queueClosed, ReadPc(s'.threads))
  {
    var i := s.inc;
    assert i.refused == [];
    assert i.pushed + [p] + [] == i.pushed + [] + [p] == (i.pushed + [p]) + [] + [];
  }

  /** Only the read loop is ever at a push. */
  lemma PusherIs(s: State, t: Tid)
    requires Inv(s) && t in s.threads
    ensures s.threads[t].Pushing? ==> t == READLOOP
  {
    hide Bytes, Signalled, Reads;
    assert Local(s, t);
  }

  lemma HandedNext(s: State, s': State)
    requires Inv(s) && Next(s, s') && Handed(s.inc, s.mem.queueClosed, ReadPc(s.threads))
    ensures Handed(s'.inc, s'.mem.queueClosed, ReadPc(s'.threads))
  {
    hide Inv, ThreadStep;
    if t :| t in s.threads && ThreadStep(s, s', t) {
      PusherIs(s, t);
      if t == READLOOP && s.threads[t].Idle? {
        assert IdleStep(s, s', t) by { Unfolded(s, s', t); }
        var next :| ReadLoopStep(s, s', READLOOP, next);
        ReadLoopHands(s, s', next);
      } else if s.threads[t].Pushing? {
        Unfolded(s, s', t);
        PushHands(s, s', s.threads[t].packet);
      } else {
        OnlyReadLoop(s, s', t);
      }
    } else if BootStep(s, s') {
      BootedHolds(s);
    }
  }

  lemma Unfolded(s: State, s': State, t: Tid)
    requires t in s.threads && ThreadStep(s, s', t)
    ensures s.threads[t].Idle? ==> IdleStep(s, s', t)
    ensures s.threads[t].Pushing? ==> PushStep(s, s', t, s.threads[t].packet)
  {
  }

  lemma {:induction false} AllHanded(run: seq<State>, i: nat)
    requires IsRun(run) && i < |run|
    ensures Handed(run[i].inc, run[i].mem.queueClosed, ReadPc(run[i].threads))
  {
    hide Next, Inv, Handed;
    if i == 0 {
      NothingHanded(run[0]);
    } else {
      AllHanded(run, i - 1);
      RunKeepsInv(run, i - 1);
      assert Next(run[i - 1], run[(i - 1) + 1]);
      HandedNext(run[i - 1], run[i]);
    }
  }

  lemma NothingHanded(s: State)
    requires Init(s)
    ensures Handed(s.inc, s.mem.queueClosed, ReadPc(s.threads))
  {
  }

  /** Every data packet the read loop has decoded is on the queue, stale, or delivered, in
      order, but for the one it is about to push, and but for one that the queue refused
      because the connection was being closed, after which the loop is gone. */
  lemma DecodedIsDelivered(run: seq<State>, i: nat)
    requires IsRun(run) && i < |run|
    ensures var j := run[i].inc;
      j.decoded == j.delivered + j.queue + j.stale + Offered(ReadPc(run[i].threads)) + j.refused
    ensures run[i].inc.refused != [] ==>
      |run[i].inc.refused| == 1 && run[i].mem.queueClosed && Failed(ReadPc(run[i].threads))
  {
    hide IsRun;
    AllHanded(run, i);
    ReadsConserved(run, i);
  }

  // Calls fail only for a cause

  /** A refused write and a lost close find the connection closed; a failed write has seen
      an I/O error, and a failed flush one of the two; a flush that succeeds leaves nothing
      buffered. */
  predicate Cause(pc: Pc, closed: bool, o: Outgoing) {
    match pc
    case Writing(_, at) => (at.WRefuse? ==> closed) && (at.WFail? || at.WFailed? ==> o.ioError)
    case Flushing(at) => (at.FFail? ==> closed || o.ioError) && (at.FUnlock? ==> o.buffered == [])
    case Closing(_, at) => at.CLost? ==> closed
    case _ => true
  }

  predicate CauseAt(s: State, t: Tid)
    requires t in s.threads
  {
    Cause(s.threads[t], s.mem.closed, s.out)
  }

  lemma GuardCause(s: State, s': State, t: Tid, p: Packet, at: WriteAt)
    requires GuardStep(s, s', t, p, at) && Cause(Writing(p, at), s.mem.closed, s.out)
    ensures t in s'.threads && CauseAt(s', t)
  {
  }

  lemma PutCause(s: State, s': State, t: Tid, p: Packet, at: WriteAt)
    requires PutStep(s, s', t, p, at)
    ensures t in s'.threads && CauseAt(s', t)
  {
    hide Wrote, FailedWrite;
  }

  lemma SignalCause(s: State, s': State, t: Tid, p: Packet, at: WriteAt)
    requires SignalStep(s, s', t, p, at)
    ensures t in s'.threads && CauseAt(s', t)
  {
  }

  lemma FlushCause(s: State, s': State, t: Tid, at: FlushAt)
    requires FlushStep(s, s', t, at)
    ensures t in s'.threads && CauseAt(s', t)
  {
    hide FailedWrite;
  }

  lemma EnterCause(s: State, s': State, t: Tid, c: Caller, at: CloseAt)
    requires EnterStep(s, s', t, c, at)
    ensures t in s'.threads && CauseAt(s', t)
  {
  }

  /** A thread at any other kind of point needs no cause. */
  predicate Free(pc: Pc) {
    && (pc.Writing? ==> pc.wat == WLock)
    && (pc.Flushing? ==> pc.fat == FLock)
    && (pc.Closing? ==> !pc.cat.CLost?)
  }

  lemma ShutFree(s: State, s': State, t: Tid, c: Caller, n: nat)
    requires ShutStep(s, s', t, c, n)
    ensures t in s'.threads && Free(s'.threads[t])
  {
  }

  lemma ChannelFree(s: State, s': State, t: Tid, c: Caller, n: nat)
    requires ChannelStep(s, s', t, c, n)
    ensures t in s'.threads && Free(s'.threads[t])
  {
  }

  lemma WaitFree(s: State, s': State, t: Tid, c: Caller, n: nat)
    requires WaitStep(s, s', t, c, n)
    ensures t in s'.threads && Free(s'.threads[t])
  {
  }

  lemma FinalFreeIn(s: State, s': State, t: Tid, c: Caller, n: nat)
    requires FinalStep(s, s', t, c, n)
    requires n <= FINALFLUSH
    ensures t in s'.threads && Free(s'.threads[t])
  {
    hide Flushed, FlushFailed;
  }

  lemma FinalFreeOut(s: State, s': State, t: Tid, c: Caller, n: nat)
    requires FinalStep(s, s', t, c, n)
    requires n > FINALFLUSH
    ensures t in s'.threads && Free(s'.threads[t])
  {
    hide Flushed, FlushFailed;
  }

  lemma FinalFree(s: State, s': State, t: Tid, c: Caller, n: nat)
    requires FinalStep(s, s', t, c, n)
    ensures t in s'.threads && Free(s'.threads[t])
  {
    hide FinalStep, Free;
    if n <= FINALFLUSH {
      FinalFreeIn(s, s', t, c, n);
    } else {
      FinalFreeOut(s, s', t, c, n);
    }
  }

  lemma WonFree(s: State, s': State, t: Tid, c: Caller, n: nat)
    requires ShutStep(s, s', t, c, n) || ChannelStep(s, s', t, c, n) || WaitStep(s, s', t, c, n) || FinalStep(s, s', t, c, n)
    ensures t in s'.threads && Free(s'.threads[t])
  {
    hide Free, ShutStep, ChannelStep, WaitStep, FinalStep;
    if ShutStep(s, s', t, c, n) {
      ShutFree(s, s', t, c, n);
    } else if ChannelStep(s, s', t, c, n) {
      ChannelFree(s, s', t, c, n);
    } else if WaitStep(s, s', t, c, n) {
      WaitFree(s, s', t, c, n);
    } else {
      FinalFree(s, s', t, c, n);
    }
  }

  lemma StreamFree(s: State, s': State, t: Tid, c: Caller, at: StreamAt)
    requires StreamStep(s, s', t, c, at)
    ensures t in s'.threads && Free(s'.threads[t])
  {
  }

  lemma ReadFree(s: State, s': State, t: Tid, at: ReadAt)
    requires ReadStep(s, s', t, at)
    ensures t in s'.threads && Free(s'.threads[t])
  {
  }

  lemma IdleFree(s: State, s': State, t: Tid)
    requires IdleStep(s, s', t)
    ensures t in s'.threads && Free(s'.threads[t])
  {
  }

  lemma PushFree(s: State, s': State, t: Tid, p: Packet)
    requires PushStep(s, s', t, p)
    ensures t in s'.threads && Free(s'.threads[t])
  {
  }

  lemma LeaveFree(s: State, s': State, t: Tid, again: bool)
    requires LeaveStep(s, s', t, again)
    ensures t in s'.threads && Free(s'.threads[t])
  {
  }

  lemma FreeCause(s: State, t: Tid)
    requires t in s.threads && Free(s.threads[t])
    ensures CauseAt(s, t)
  {
  }

  lemma WriteCause(s: State, s': State, t: Tid, p: Packet, at: WriteAt)
    requires WriteStep(s, s', t, p, at) && Cause(Writing(p, at), s.mem.closed, s.out)
    ensures t in s'.threads && CauseAt(s', t)
  {
    hide Cause, GuardStep, PutStep, SignalStep;
    if GuardStep(s, s', t, p, at) {
      GuardCause(s, s', t, p, at);
    } else if PutStep(s, s', t, p, at) {
      PutCause(s, s', t, p, at);
    } else {
      SignalCause(s, s', t, p, at);
    }
  }

  lemma CloseCause(s: State, s': State, t: Tid, c: Caller, at: CloseAt)
    requires CloseStep(s, s', t, c, at)
    ensures t in s'.threads && CauseAt(s', t)
  {
    hide Cause, Free, EnterStep, ShutStep, ChannelStep, WaitStep, StreamStep, FinalStep;
    match at
    case CWon(n) => WonFree(s, s', t, c, n); FreeCause(s', t);
    case CStream(sat) => StreamFree(s, s', t, c, sat); FreeCause(s', t);
    case _ => EnterCause(s, s', t, c, at);
  }

  lemma OwnCause(s: State, s': State, t: Tid)
    requires t in s.threads && ThreadStep(s, s', t) && CauseAt(s, t)
    ensures t in s'.threads && CauseAt(s', t)
  {
    hide Cause, Free, WriteStep, FlushStep, CloseStep, ReadStep, IdleStep, LeaveStep, PushStep;
    match s.threads[t]
    case Writing(p, at) => WriteCause(s, s', t, p, at);
    case Flushing(at) => FlushCause(s, s', t, at);
    case Closing(c, at) => CloseCause(s, s', t, c, at);
    case Reading(at) => ReadFree(s, s', t, at); FreeCause(s', t);
    case Idle => IdleFree(s, s', t); FreeCause(s', t);
    case Pushing(p) => PushFree(s, s', t, p); FreeCause(s', t);
    case Leaving(again) => LeaveFree(s, s', t, again); FreeCause(s', t);
    case Exited =>
  }

  // What the others may do meanwhile

  /** The outgoing side changes only under the mutex, and an error is never forgotten. */
  predicate Orderly(s: State, s': State, pc: Pc) {
    (s'.out == s.out || HoldsLock(pc)) && (s.out.ioError ==> s'.out.ioError)
  }

  lemma PutOrderly(s: State, s': State, t: Tid, p: Packet, at: WriteAt)
    requires PutStep(s, s', t, p, at) || SignalStep(s, s', t, p, at)
    ensures Orderly(s, s', Writing(p, at))
  {
    hide Wrote, FailedWrite;
  }

  lemma FlushOrderly(s: State, s': State, t: Tid, at: FlushAt)
    requires FlushStep(s, s', t, at)
    ensures Orderly(s, s', Flushing(at))
  {
    hide FailedWrite;
  }

  lemma FinalOrderly(s: State, s': State, t: Tid, c: Caller, n: nat)
    requires FinalStep(s, s', t, c, n)
    ensures Orderly(s, s', Closing(c, CWon(n)))
  {
    hide FailedWrite;
  }

  lemma ShutOrderly(s: State, s': State, t: Tid, c: Caller, n: nat)
    requires ShutStep(s, s', t, c, n) || ChannelStep(s, s', t, c, n) || WaitStep(s, s', t, c, n)
    requires ShutStep(s, s', t, c, n)
    ensures s'.out == s.out
  {
  }

  lemma RestOrderly(s: State, s': State, t: Tid, c: Caller, n: nat)
    requires ShutStep(s, s', t, c, n) || ChannelStep(s, s', t, c, n) || WaitStep(s, s', t, c, n)
    requires !ShutStep(s, s', t, c, n)
    ensures s'.out == s.out
  {
  }

  lemma WonOrderly(s: State, s': State, t: Tid, c: Caller, n: nat)
    requires ShutStep(s, s', t, c, n) || ChannelStep(s, s', t, c, n) || WaitStep(s, s', t, c, n)
    ensures s'.out == s.out
  {
    hide ShutStep, ChannelStep, WaitStep;
    if ShutStep(s, s', t, c, n) {
      ShutOrderly(s, s', t, c, n);
    } else {
      RestOrderly(s, s', t, c, n);
    }
  }

  lemma StreamOrderly(s: State, s': State, t: Tid, c: Caller, at: StreamAt)
    requires StreamStep(s, s', t, c, at)
    ensures s'.out == s.out
  {
  }

  lemma ReadLoopOrderly(s: State, s': State)
    requires IdleStep(s, s', READLOOP)
    ensures s'.out == s.out
  {
  }

  lemma ActiveOrderly(s: State, s': State, t: Tid)
    requires t in s.threads && ThreadStep(s, s', t) && Active(s.threads[t], t)
    ensures Orderly(s, s', s.threads[t])
  {
    hide HoldsLock, GuardStep, PutStep, SignalStep, FlushStep, IdleStep, FinalStep, ShutStep, ChannelStep, WaitStep, StreamStep;
    match s.threads[t]
    case Writing(p, at) => NotGuarded(s, s', t, p, at); PutOrderly(s, s', t, p, at);
    case Flushing(at) => FlushOrderly(s, s', t, at);
    case Closing(c, at) =>
      if at.CStream? {
        StreamOrderly(s, s', t, c, at.sat);
      } else if FinalStep(s, s', t, c, at.point) {
        FinalOrderly(s, s', t, c, at.point);
      } else {
        WonOrderly(s, s', t, c, at.point);
      }
    case Idle => ReadLoopOrderly(s, s');
    case _ =>
  }

  lemma NotGuarded(s: State, s': State, t: Tid, p: Packet, at: WriteAt)
    requires WriteStep(s, s', t, p, at) && Permitted(Writing(p, at))
    ensures PutStep(s, s', t, p, at) || SignalStep(s, s', t, p, at)
  {
  }

  lemma StepOrderly(s: State, s': State, t: Tid)
    requires t in s.threads && ThreadStep(s, s', t)
    ensures Orderly(s, s', s.threads[t])
  {
    hide ThreadStep, Active, HoldsLock;
    if Active(s.threads[t], t) {
      ActiveOrderly(s, s', t);
    } else {
      PassiveStep(s, s', t);
    }
  }

  lemma HolderIsOne(s: State, t: Tid, u: Tid)
    requires Inv(s) && t in s.threads && u in s.threads && HoldsLock(s.threads[t]) && HoldsLock(s.threads[u])
    ensures t == u
  {
    hide Bytes, Signalled, Reads, PhaseAt, RoleAt, TokenAt, InFlightAt;
    assert Local(s, t) && Local(s, u);
  }

  lemma OtherCause(s: State, s': State, t: Tid, u: Tid)
    requires Inv(s) && t in s.threads && ThreadStep(s, s', t) && u != t && u in s.threads && CauseAt(s, u)
    requires u in s'.threads && s'.threads[u] == s.threads[u] && (s.mem.closed ==> s'.mem.closed)
    ensures CauseAt(s', u)
  {
    hide Inv, ThreadStep;
    StepOrderly(s, s', t);
    if s'.out != s.out && s.threads[u].Flushing? && s.threads[u].fat.FUnlock? {
      HolderIsOne(s, t, u);
    }
  }

  ghost predicate AllCaused(s: State) {
    forall t :: t in s.threads ==> CauseAt(s, t)
  }

  lemma CausedNext(s: State, s': State)
    requires Inv(s) && Next(s, s') && AllCaused(s)
    ensures AllCaused(s')
  {
    PhaseGrows(s, s');
    NextKeepsInv(s, s');
    CountHolds(s);
    CountHolds(s');
    hide Inv, ThreadStep, Cause, Local, SharedKept;
    if t :| t in s.threads && ThreadStep(s, s', t) {
      OwnCause(s, s', t);
      NoStepYet(s, s', t);
      ReadyAt(s, t);
      StepKept(s, s', t);
      forall u | u in s'.threads && u != t
        ensures CauseAt(s', u)
      {
        OtherCause(s, s', t, u);
      }
    } else {
      StartedIdle(s, s');
    }
  }

  lemma StartedIdle(s: State, s': State)
    requires AllCaused(s) && (BootStep(s, s') || exists t :: Spawn(s, s', t))
    ensures AllCaused(s')
  {
    forall u | u in s'.threads
      ensures CauseAt(s', u)
    {
      assert u in s.threads ==> CauseAt(s, u);
    }
  }

  lemma {:induction false} RunCaused(run: seq<State>, i: nat)
    requires IsRun(run) && i < |run|
    ensures AllCaused(run[i])
  {
    hide Next, Inv, Cause;
    if i > 0 {
      RunCaused(run, i - 1);
      RunKeepsInv(run, i - 1);
      assert Next(run[i - 1], run[(i - 1) + 1]);
      CausedNext(run[i - 1], run[i]);
    }
  }

  /** A thread's call of writePacket ends in one of three ways: with nil, and then the
      packet is accepted; or because the connection is closed; or after an I/O error. A loop
      whose write has failed leaves, to close the connection. */
  lemma WriteOutcome(run: seq<State>, i: nat, t: Tid)
    requires IsRun(run) && i + 1 < |run| && t in run[i].threads && ThreadStep(run[i], run[i + 1], t)
    requires run[i].threads[t].Writing? && t in run[i + 1].threads && !run[i + 1].threads[t].Writing?
    ensures var o := run[i].out;
      || (run[i + 1].out.accepted == o.accepted + [run[i].threads[t].packet] && run[i + 1].threads[t] == Idle)
      || (run[i + 1].out.accepted == o.accepted && (run[i].mem.closed || o.ioError) &&
          (IsLoop(t) ==> run[i + 1].threads[t] == Leaving(true)))
  {
    RunCaused(run, i);
    assert CauseAt(run[i], t);
    hide IsRun;
    Ended(run[i], run[i + 1], t, run[i].threads[t].packet, run[i].threads[t].wat);
  }

  predicate EndedWell(s: State, s': State, t: Tid, p: Packet)
    requires t in s'.threads
  {
    || (s'.out.accepted == s.out.accepted + [p] && s'.threads[t] == Idle)
    || (s'.out.accepted == s.out.accepted && (s.mem.closed || s.out.ioError) &&
        (IsLoop(t) ==> s'.threads[t] == Leaving(true)))
  }

  lemma GuardEnded(s: State, s': State, t: Tid, p: Packet, at: WriteAt)
    requires GuardStep(s, s', t, p, at) && t in s'.threads && !s'.threads[t].Writing?
    requires Cause(Writing(p, at), s.mem.closed, s.out)
    ensures EndedWell(s, s', t, p)
  {
  }

  lemma PutGoesOn(s: State, s': State, t: Tid, p: Packet, at: WriteAt)
    requires PutStep(s, s', t, p, at)
    ensures t in s'.threads && s'.threads[t].Writing?
  {
    hide HeaderWritten, HeaderFailed, ContentWritten, ContentFailed;
  }

  lemma SignalEnded(s: State, s': State, t: Tid, p: Packet, at: WriteAt)
    requires SignalStep(s, s', t, p, at) && t in s'.threads && !s'.threads[t].Writing?
    ensures EndedWell(s, s', t, p)
  {
  }

  lemma Ended(s: State, s': State, t: Tid, p: Packet, at: WriteAt)
    requires WriteStep(s, s', t, p, at) && t in s'.threads && !s'.threads[t].Writing? && Cause(Writing(p, at), s.mem.closed, s.out)
    ensures EndedWell(s, s', t, p)
  {
    hide EndedWell, GuardStep, PutStep, SignalStep, Cause;
    if GuardStep(s, s', t, p, at) {
      GuardEnded(s, s', t, p, at);
    } else if PutStep(s, s', t, p, at) {
      PutGoesOn(s, s', t, p, at);
    } else {
      SignalEnded(s, s', t, p, at);
    }
  }

  /** A call of ReadPacket ends in one of two ways: with the packet that is next in order,
      or with the news that the connection is closed. */
  lemma ReadOutcome(run: seq<State>, i: nat, t: Tid)
    requires IsRun(run) && i + 1 < |run| && t in run[i].threads && ThreadStep(run[i], run[i + 1], t)
    requires run[i].threads[t].Reading? && t in run[i + 1].threads && !run[i + 1].threads[t].Reading?
    ensures run[i + 1].threads[t] == Idle
    ensures var d, d' := run[i].inc.delivered, run[i + 1].inc.delivered;
      || (|d'| == |d| + 1 && d <= d' <= run[i].inc.pushed)
      || (d' == d && run[i + 1].inc.closedReported)
  {
    ReadsConserved(run, i);
    ReadsConserved(run, i + 1);
    ChannelSafety(run, i, t);
    RunKeepsInv(run, i + 1);
    hide IsRun;
    NoFault(run[i + 1]);
    ReadEnds(run[i], run[i + 1], t, run[i].threads[t].rat);
  }

  lemma NoFault(s: State)
    requires Inv(s)
    ensures !s.fault
  {
  }

  lemma ReadEnds(s: State, s': State, t: Tid, at: ReadAt)
    requires ReadStep(s, s', t, at) && t in s'.threads && !s'.threads[t].Reading? && !s'.fault
    ensures s'.threads[t] == Idle && s'.inc.pushed == s.inc.pushed
    ensures || (exists x :: s'.inc.delivered == s.inc.delivered + [x])
            || (s'.inc.delivered == s.inc.delivered && s'.inc.closedReported)
  {
    if s'.inc.delivered != s.inc.delivered {
      assert s'.inc.delivered == s.inc.delivered + [s'.inc.delivered[|s.inc.delivered|]];
    }
  }

  /** A flush that succeeds leaves nothing buffered, and one that fails has found the
      connection closed or seen an I/O error. */
  lemma FlushOutcome(run: seq<State>, i: nat, t: Tid)
    requires IsRun(run) && i < |run| && t in run[i].threads
    ensures run[i].threads[t] == Flushing(FUnlock) ==> run[i].out.buffered == []
    ensures run[i].threads[t] == Flushing(FFail) ==> run[i].mem.closed || run[i].out.ioError
  {
    RunCaused(run, i);
    assert CauseAt(run[i], t);
  }

  // A failure closes the connection

  /** On the way from a failure to the compare-and-swap of close. */
  predicate Failing(pc: Pc) {
    match pc
    case Writing(_, at) => at.WFail? || at.WFailed?
    case Flushing(at) => at.FFail?
    case Leaving(again) => again
    case Closing(_, at) => at.CStale? || at.CSwap?
    case _ => false
  }

  /** In a call of close, before the compare-and-swap. */
  predicate Entering(pc: Pc) {
    pc.Closing? && (pc.cat.CStale? || pc.cat.CSwap?)
  }

  lemma GuardFailing(s: State, s': State, t: Tid, p: Packet, at: WriteAt)
    requires GuardStep(s, s', t, p, at) && Failing(Writing(p, at))
    ensures t in s'.threads && (s.mem.closed || Failing(s'.threads[t]))
  {
  }

  lemma FailingStep(s: State, s': State, t: Tid)
    requires t in s.threads && ThreadStep(s, s', t) && Failing(s.threads[t])
    ensures t in s'.threads && (s.mem.closed || s'.mem.closed || Failing(s'.threads[t]))
    ensures Entering(s.threads[t]) ==> s.mem.closed || s'.mem.closed || Entering(s'.threads[t])
  {
    hide PutStep, SignalStep, GuardStep, ShutStep, ChannelStep, WaitStep, FinalStep, StreamStep;
    match s.threads[t]
    case Writing(p, at) => OnlyGuard(s, s', t, p, at); GuardFailing(s, s', t, p, at);
    case Flushing(at) =>
    case Leaving(again) =>
    case Closing(c, at) =>
    case _ =>
  }

  lemma OthersAlone(s: State, s': State, t: Tid)
    requires Inv(s) && Next(s, s') && t in s.threads && !ThreadStep(s, s', t)
    ensures t in s'.threads && s'.threads[t] == s.threads[t]
  {
    BootedHolds(s);
    hide Inv, ThreadStep, Local, SharedKept, Booted;
    if u :| u in s.threads && ThreadStep(s, s', u) {
      NoStepYet(s, s', u);
      ReadyAt(s, u);
      StepKept(s, s', u);
    } else if BootStep(s, s') {
      NewLoop(s, s', t);
    }
  }

  lemma NewLoop(s: State, s': State, t: Tid)
    requires BootStep(s, s') && Booted(s.threads, s.boot) && t in s.threads
    ensures t in s'.threads && s'.threads[t] == s.threads[t]
  {
  }

  lemma ClosedGrows(s: State, s': State)
    requires Inv(s) && Next(s, s')
    ensures s.mem.closed ==> s'.mem.closed
  {
    hide Inv, Next;
    PhaseGrows(s, s');
    NextKeepsInv(s, s');
    CountHolds(s);
    CountHolds(s');
  }

  lemma FailingNext(s: State, s': State, t: Tid)
    requires Inv(s) && Next(s, s') && t in s.threads && (s.mem.closed || Failing(s.threads[t]))
    ensures t in s'.threads && (s'.mem.closed || Failing(s'.threads[t]))
    ensures s.mem.closed || Entering(s.threads[t]) ==> s'.mem.closed || Entering(s'.threads[t])
  {
    hide Inv, Next, ThreadStep, Failing, Entering;
    ClosedGrows(s, s');
    PhaseGrows(s, s');
    if !s.mem.closed {
      if ThreadStep(s, s', t) {
        FailingStep(s, s', t);
      } else {
        OthersAlone(s, s', t);
      }
    }
  }

  /** A failure closes the connection: a call whose write or flush has failed, and a loop
      that leaves for an error, is at every later moment still on its way to close, or the
      connection is closed. In particular no such call returns on an open connection. */
  lemma {:induction false} FailureCloses(run: seq<State>, i: nat, j: nat, t: Tid)
    requires IsRun(run) && i <= j < |run| && t in run[i].threads && Failing(run[i].threads[t])
    ensures t in run[j].threads && (run[j].mem.closed || Failing(run[j].threads[t]))
    ensures run[j].threads[t] == Idle || run[j].threads[t] == Exited ==> run[j].mem.closed
    ensures Entering(run[i].threads[t]) ==> run[j].mem.closed || Entering(run[j].threads[t])
    decreases j - i
  {
    hide Next, Inv, Init;
    if i < j {
      FailureCloses(run, i, j - 1, t);
      RunKeepsInv(run, j - 1);
      assert Next(run[j - 1], run[(j - 1) + 1]);
      FailingNext(run[j - 1], run[j], t);
    }
  }

  /** A call of close, won or lost, returns only when the connection is closed. */
  lemma CloseOutcome(run: seq<State>, i: nat, j: nat, t: Tid)
    requires IsRun(run) && i <= j < |run| && t in run[i].threads && run[i].threads[t].Closing?
    requires t in run[j].threads && !run[j].threads[t].Closing?
    ensures run[j].mem.closed
  {
    RunKeepsInv(run, i);
    RunCaused(run, i);
    assert CauseAt(run[i], t) && Local(run[i], t);
    FlagsHold(run[i]);
    hide IsRun, Inv;
    if run[i].threads[t].cat.CStale? || run[i].threads[t].cat.CSwap? {
      FailureCloses(run, i, j, t);
    } else {
      ClosedStays(run, i, j);
    }
  }

  lemma {:induction false} ClosedStays(run: seq<State>, i: nat, j: nat)
    requires IsRun(run) && i <= j < |run| && run[i].mem.closed
    ensures run[j].mem.closed
    decreases j - i
  {
    hide Next, Inv, Init;
    if i < j {
      ClosedStays(run, i, j - 1);
      RunKeepsInv(run, j - 1);
      assert Next(run[j - 1], run[(j - 1) + 1]);
      ClosedGrows(run[j - 1], run[j]);
    }
  }
}
