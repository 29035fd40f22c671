/** One whole life of a connection, as a run: it is made, hands a received packet to a
    reader, sends a packet, is closed, and tells the next reader so. */
module LifecycleLife {
  import opened MetadataCodec
  import opened Wire
  import opened Options
  import opened Lifecycle
  import opened LifecycleInvariant
  import opened LifecycleTheorems
  import opened LifecycleStart

  const USER: Tid := 3

  /** NewAsync has returned, and a thread has got hold of the connection. */
  lemma Made(r: State) returns (s: State)
    requires r.boot == 0 && r.mem.wg == 0 && r.threads == map[]
    ensures Reaches(r, s) && s == r.(boot := MADE, mem := r.mem.(wg := 3), threads := s.threads)
    ensures s.threads == map[FLUSHLOOP := Idle, READLOOP := Idle, PINGLOOP := Idle, USER := Idle]
  {
    hide Reaches;
    var a := TwoStarted(r);
    var b := a.(boot := 5, mem := a.mem.(wg := 3));
    BootMoves(r, a, b);
    var c := To(b.(boot := 6), PINGLOOP, Idle);
    BootMoves(r, b, c);
    s := To(c, USER, Idle);
    assert Spawn(c, s, USER);
    hide ThreadStep, BootStep;
    Step(r, c, s);
  }

  /** The read loop decodes a packet and pushes it. */
  lemma ReadLoopPushes(r: State, s: State, q: Packet) returns (s': State)
    requires Reaches(r, s) && READLOOP in s.threads && s.threads[READLOOP] == Idle
    ensures Reaches(r, s') && s' == s.(inc := s'.inc)
    ensures s'.inc == s.inc.(decoded := s.inc.decoded + [q], queue := s.inc.queue + [q], pushed := s.inc.pushed + [q])
  {
    hide Reaches;
    var a := To(s.(inc := s.inc.(decoded := s.inc.decoded + [q])), READLOOP, Pushing(q));
    assert ReadLoopStep(s, a, READLOOP, Pushing(q));
    ThreadMoves(r, s, a, READLOOP);
    s' := To(a.(inc := a.inc.(queue := a.inc.queue + [q], pushed := a.inc.pushed + [q])), READLOOP, Idle);
    ThreadMoves(r, a, s', READLOOP);
    assert s'.threads == s.threads;
  }

  /** A reader is given it. */
  lemma ReaderTakes(r: State, s: State, t: Tid) returns (s': State)
    requires Reaches(r, s) && !IsLoop(t) && t in s.threads && s.threads[t] == Idle && !s.mem.closed && s.inc.queue != []
    ensures Reaches(r, s') && s' == s.(inc := s'.inc)
    ensures s'.inc == s.inc.(queue := s.inc.queue[1..], delivered := s.inc.delivered + [s.inc.queue[0]])
  {
    hide Reaches;
    var a := To(s, t, Reading(RLoad));
    assert StartStep(s, a, t, Reading(RLoad));
    ThreadMoves(r, s, a, t);
    var b := To(a, t, Reading(RPop));
    ThreadMoves(r, a, b, t);
    s' := To(b.(inc := b.inc.(queue := b.inc.queue[1..], delivered := b.inc.delivered + [b.inc.queue[0]])), t, Idle);
    ThreadMoves(r, b, s', t);
    assert s'.threads == s.threads;
  }

  /** A writer sends an empty packet. */
  lemma WriterSends(r: State, s: State, t: Tid, p: Packet) returns (s': State)
    requires Reaches(r, s) && !IsLoop(t) && t in s.threads && s.threads[t] == Idle
    requires Admissible(p, s.max) && p.contentLength == 0
    requires s.mem.lock == None && !s.mem.closed && !s.out.broken && s.mem.tokens == 0 && !s.mem.flushChClosed
    ensures Reaches(r, s') && s' == s.(mem := s.mem.(tokens := 1), out := s'.out, ops := s'.ops)
    ensures s'.out.buffered == s.out.buffered + HeaderBytes(PacketHeader(p)) && s'.out.accepted == s.out.accepted + [p]
    ensures s'.out.wire == s.out.wire && s'.out.broken == s.out.broken
  {
    hide Reaches, HeaderBytes;
    var a := To(s, t, Writing(p, WLock));
    assert StartStep(s, a, t, Writing(p, WLock));
    ThreadMoves(r, s, a, t);
    var b := WriterBuffers(r, a, t, p);
    s' := WriterSignals(r, b, t, p);
    assert s'.threads == s.threads;
  }

  /** The flush loop takes the token and locks. */
  lemma FlushLoopLocks(r: State, s: State) returns (s': State)
    requires Reaches(r, s) && FLUSHLOOP in s.threads && s.threads[FLUSHLOOP] == Idle
    requires s.mem.lock == None && !s.mem.closed && s.mem.tokens == 1
    ensures Reaches(r, s')
    ensures s' == s.(mem := s.mem.(tokens := 0, lock := Some(FLUSHLOOP)), threads := s.threads[FLUSHLOOP := Flushing(FBuffered)])
  {
    hide Reaches;
    var t := FLUSHLOOP;
    var a := To(s.(mem := s.mem.(tokens := 0)), t, Flushing(FLock));
    ThreadMoves(r, s, a, t);
    var b := To(Locked(a, t), t, Flushing(FCheck));
    ThreadMoves(r, a, b, t);
    s' := To(b, t, Flushing(FBuffered));
    ThreadMoves(r, b, s', t);
  }

  /** It flushes. */
  lemma FlushLoopFlushed(r: State, s: State) returns (s': State)
    requires Reaches(r, s) && FLUSHLOOP in s.threads && s.threads[FLUSHLOOP] == Flushing(FBuffered)
    requires s.out.buffered != [] && !s.out.broken
    ensures Reaches(r, s')
    ensures s' == s.(mem := s.mem.(lock := None), threads := s.threads[FLUSHLOOP := Idle], ops := s'.ops,
                     out := s.out.(wire := s.out.wire + s.out.buffered, buffered := []))
  {
    hide Reaches;
    var t := FLUSHLOOP;
    var a := To(Did(s, t, SetDeadline), t, Flushing(FFlush));
    ThreadMoves(r, s, a, t);
    var o := a.out.(wire := a.out.wire + a.out.buffered, buffered := []);
    assert Flushed(a.out, o);
    var b := To(Did(a.(out := o), t, Write), t, Flushing(FUnlock));
    ThreadMoves(r, a, b, t);
    s' := To(Unlocked(b), t, Idle);
    ThreadMoves(r, b, s', t);
  }

  /** The ping loop finds the close channel closed and is done. */
  lemma PingLoopLeaves(r: State, s: State) returns (s': State)
    requires Reaches(r, s) && PINGLOOP in s.threads && s.threads[PINGLOOP] == Idle && s.mem.closeChClosed && s.mem.wg > 0
    ensures Reaches(r, s') && s' == s.(mem := s.mem.(wg := s.mem.wg - 1), threads := s.threads[PINGLOOP := Exited])
  {
    hide Reaches;
    var a := To(s, PINGLOOP, Leaving(false));
    ThreadMoves(r, s, a, PINGLOOP);
    s' := To(Faulted(a.(mem := a.mem.(wg := a.mem.wg - 1)), false), PINGLOOP, Exited);
    ThreadMoves(r, a, s', PINGLOOP);
  }

  /** The winner passes the Wait. */
  lemma WinnerPasses(r: State, s: State, t: Tid, c: Caller) returns (s': State)
    requires Reaches(r, s) && t in s.threads && s.threads[t] == Closing(c, CWon(WAIT)) && s.mem.wg == 0
    ensures Reaches(r, s') && s' == s.(threads := s'.threads, win := s.win.(phase := DRAIN), past := false, ops := s'.ops)
    ensures s'.threads == s.threads[t := Closing(c, CWon(DRAIN))]
  {
    hide Reaches;
    var a := Advance(s, t, c, EMPTY);
    ThreadMoves(r, s, a, t);
    s' := Advance(Did(a.(past := false), t, SetDeadline), t, c, DRAIN);
    ThreadMoves(r, a, s', t);
  }

  /** It drains the queue and lets the readers go on. */
  lemma WinnerDrains(r: State, s: State, t: Tid, c: Caller) returns (s': State)
    requires Reaches(r, s) && t in s.threads && s.threads[t] == Closing(c, CWon(DRAIN))
    ensures Reaches(r, s') && s' == s.(mem := s.mem.(staleMu := None), threads := s'.threads, win := s.win.(phase := STREAMS),
                                       inc := s.inc.(stale := s.inc.queue, queue := []))
    ensures s'.threads == s.threads[t := Closing(c, CWon(STREAMS))]
  {
    hide Reaches;
    var a := Advance(s.(inc := s.inc.(stale := s.inc.queue, queue := [])), t, c, STALEUNLOCK);
    ThreadMoves(r, s, a, t);
    s' := Advance(a.(mem := a.mem.(staleMu := None)), t, c, STREAMS);
    ThreadMoves(r, a, s', t);
  }

  /** It has nothing left to flush. */
  lemma WinnerFlushes(r: State, s: State, t: Tid, c: Caller) returns (s': State)
    requires Reaches(r, s) && t in s.threads && s.threads[t] == Closing(c, CWon(STREAMS))
    requires s.mem.lock == None && s.out.buffered == []
    ensures Reaches(r, s') && s' == s.(mem := s.mem.(lock := Some(t)), threads := s'.threads, win := s.win.(phase := FINALUNLOCK))
    ensures s'.threads == s.threads[t := Closing(c, CWon(FINALUNLOCK))]
  {
    hide Reaches;
    var a := Advance(s, t, c, FINALLOCK);
    ThreadMoves(r, s, a, t);
    var b := Advance(Locked(a, t), t, c, FINALFLUSH);
    ThreadMoves(r, a, b, t);
    s' := Advance(b, t, c, FINALUNLOCK);
    ThreadMoves(r, b, s', t);
  }

  /** It closes the connection. */
  lemma WinnerCloses(r: State, s: State, t: Tid) returns (s': State)
    requires Reaches(r, s) && !IsLoop(t) && t in s.threads && s.threads[t] == Closing(ByClose, CWon(FINALUNLOCK))
    ensures Reaches(r, s') && s' == s.(mem := s.mem.(lock := None), threads := s.threads[t := Idle],
                                       win := s.win.(phase := FINISHED), ops := s.ops + [(t, CloseConn)])
  {
    hide Reaches;
    var a := Advance(Unlocked(s), t, ByClose, CONNCLOSE);
    ThreadMoves(r, s, a, t);
    s' := Finish(Did(a, t, CloseConn), t);
    ThreadMoves(r, a, s', t);
  }

  /** The next reader is told that the connection is closed. */
  lemma ReaderTold(r: State, s: State, t: Tid) returns (s': State)
    requires Reaches(r, s) && !IsLoop(t) && t in s.threads && s.threads[t] == Idle
    requires s.mem.closed && s.mem.staleMu == None && s.inc.stale == []
    ensures Reaches(r, s') && s' == s.(inc := s.inc.(closedReported := true))
  {
    hide Reaches;
    var a := To(s, t, Reading(RLoad));
    assert StartStep(s, a, t, Reading(RLoad));
    ThreadMoves(r, s, a, t);
    var b := To(a, t, Reading(RStaleLock));
    ThreadMoves(r, a, b, t);
    var c := To(b.(mem := b.mem.(staleMu := Some(t))), t, Reading(RTake));
    ThreadMoves(r, b, c, t);
    s' := To(c.(inc := c.inc.(closedReported := true), mem := c.mem.(staleMu := None)), t, Idle);
    ThreadMoves(r, c, s', t);
    assert s'.threads == s.threads && s'.mem == s.mem;
  }

  /** Up to the close: one packet received and one sent and flushed. */
  lemma Used(r: State, p: Packet, q: Packet) returns (s: State)
    requires r == Start(r.max) && Admissible(p, r.max) && p.contentLength == 0
    ensures Reaches(r, s) && s == r.(boot := MADE, mem := r.mem.(wg := 3), threads := s.threads, out := s.out, inc := s.inc, ops := s.ops)
    ensures s.threads == map[FLUSHLOOP := Idle, READLOOP := Idle, PINGLOOP := Idle, USER := Idle]
    ensures s.out.wire == Frame(p) && s.out.buffered == [] && s.out.accepted == [p] && !s.out.broken
    ensures s.inc == r.inc.(decoded := [q], pushed := [q], delivered := [q])
  {
    hide Reaches, HeaderBytes;
    s := Made(r);
    s := ReadLoopPushes(r, s, q);
    s := ReaderTakes(r, s, USER);
    s := WriterSends(r, s, USER, p);
    s := FlushLoopLocks(r, s);
    s := FlushLoopFlushed(r, s);
    assert s.threads == map[FLUSHLOOP := Idle, READLOOP := Idle, PINGLOOP := Idle, USER := Idle];
  }

  /** There is a run of a whole life: the packet q that came in was delivered, the packet p
      that was accepted is on the wire as its frame, Close has won and closed the
      connection as the last thing done to it, and the next reader was told. */
  lemma WholeLife(max: uint32, p: Packet, q: Packet) returns (s: State)
    requires Admissible(p, max) && p.contentLength == 0
    ensures Reachable(s) && s.win == Winner(FINISHED, USER, ByClose) && s.mem.wg == 0 && s.mem.closed
    ensures s.inc.delivered == [q] && s.inc.closedReported
    ensures s.out.accepted == [p] && s.out.wire == Frame(p)
    ensures s.ops != [] && s.ops[|s.ops| - 1] == (USER, CloseConn)
  {
    hide Reaches, Reachable, Frame;
    var r := Start(max);
    s := Used(r, p, q);
    var a := To(s, USER, Closing(ByClose, CStale));
    assert StartStep(s, a, USER, Closing(ByClose, CStale));
    ThreadMoves(r, s, a, USER);
    s := CloserWins(r, a, USER, ByClose);
    s := WinnerShuts(r, s, USER, ByClose);
    s := WinnerWaits(r, s, USER, ByClose);
    s := FlushLoopLeaves(r, s);
    s := PingLoopLeaves(r, s);
    s := ReadLoopLeaves(r, s);
    s := WinnerPasses(r, s, USER, ByClose);
    s := WinnerDrains(r, s, USER, ByClose);
    s := WinnerFlushes(r, s, USER, ByClose);
    s := WinnerCloses(r, s, USER);
    s := ReaderTold(r, s, USER);
    StartIsInitial(max, s);
  }
}
