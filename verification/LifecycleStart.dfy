/** NewAsync adds and starts its loops one by one, while those it has started already run:
    runs in which it is overtaken, and what a zero count of the wait group is worth. */
module LifecycleStart {
  import opened MetadataCodec
  import opened Wire
  import opened Options
  import opened Lifecycle
  import opened LifecycleInvariant
  import opened LifecycleTheorems

  // Reachability

  ghost predicate Leads(path: seq<State>, r: State, s: State) {
    && path != [] && path[0] == r && path[|path| - 1] == s
    && forall i :: 0 <= i < |path| - 1 ==> Next(path[i], path[i + 1])
  }

  ghost predicate Reaches(r: State, s: State) {
    exists path :: Leads(path, r, s)
  }

  ghost predicate Reachable(s: State) {
    exists r :: Init(r) && Reaches(r, s)
  }

  lemma Here(s: State)
    ensures Reaches(s, s)
  {
    assert Leads([s], s, s);
  }

  lemma Step(r: State, s: State, s': State)
    requires Reaches(r, s) && Next(s, s')
    ensures Reaches(r, s')
  {
    hide Next;
    var path :| Leads(path, r, s);
    var more := path + [s'];
    forall i | 0 <= i < |more| - 1
      ensures Next(more[i], more[i + 1])
    {
      if i + 1 < |path| {
        assert Next(path[i], path[i + 1]);
      }
    }
    assert Leads(more, r, s');
  }

  lemma BootMoves(r: State, s: State, s': State)
    requires Reaches(r, s) && BootStep(s, s')
    ensures Reaches(r, s')
  {
    hide Reaches, ThreadStep, Spawn;
    Step(r, s, s');
  }

  lemma ThreadMoves(r: State, s: State, s': State, t: Tid)
    requires Reaches(r, s) && t in s.threads && ThreadStep(s, s', t)
    ensures Reaches(r, s')
  {
    hide Reaches, ThreadStep, BootStep, Spawn;
    Step(r, s, s');
  }

  /** A path from an initial state is a run. */
  lemma PathIsRun(path: seq<State>, r: State, s: State)
    requires Leads(path, r, s) && Init(r)
    ensures IsRun(path)
  {
  }

  lemma ReachableInv(s: State)
    requires Reachable(s)
    ensures Inv(s)
  {
    hide Inv, Init, Next;
    var r :| Init(r) && Reaches(r, s);
    var path :| Leads(path, r, s);
    PathIsRun(path, r, s);
    RunKeepsInv(path, |path| - 1);
  }

  // Starting

  /** The state NewAsync starts from. */
  function Start(max: uint32): State {
    State(max, 0, Memory(None, None, false, 0, false, false, false, 0), Outgoing([], [], false, [], [], [], [], false, false),
          Incoming([], [], [], [], [], [], false), Winner(0, READLOOP, ByError), false, [], false, map[])
  }

  /** The flush loop and the read loop are started. */
  lemma TwoStarted(r: State) returns (s: State)
    requires r.boot == 0 && r.mem.wg == 0 && r.threads == map[]
    ensures Reaches(r, s) && s == r.(boot := READING, mem := s.mem, threads := s.threads)
    ensures s.mem == r.mem.(wg := 2) && s.threads == map[FLUSHLOOP := Idle, READLOOP := Idle]
  {
    Here(r);
    hide Reaches;
    var a := r.(boot := 1, mem := r.mem.(wg := 1));
    BootMoves(r, r, a);
    var b := To(a.(boot := 2), FLUSHLOOP, Idle);
    BootMoves(r, a, b);
    var c := b.(boot := 3, mem := b.mem.(wg := 2));
    BootMoves(r, b, c);
    s := To(c.(boot := 4), READLOOP, Idle);
    BootMoves(r, c, s);
  }

  // A wait that does not cover the ping loop

  /** The read loop fails and is done; another loop may be, too. */
  lemma ReadLoopLeaves(r: State, s: State) returns (s': State)
    requires Reaches(r, s) && READLOOP in s.threads && s.threads[READLOOP] == Idle && s.mem.wg > 0
    ensures Reaches(r, s') && s' == s.(mem := s'.mem, threads := s'.threads)
    ensures s'.mem == s.mem.(wg := s.mem.wg - 1) && s'.threads == s.threads[READLOOP := Closing(ByError, CStale)]
  {
    hide Reaches;
    var a := To(s, READLOOP, Leaving(true));
    assert ReadLoopStep(s, a, READLOOP, Leaving(true));
    ThreadMoves(r, s, a, READLOOP);
    s' := To(Faulted(a.(mem := a.mem.(wg := a.mem.wg - 1)), false), READLOOP, Closing(ByError, CStale));
    ThreadMoves(r, a, s', READLOOP);
  }

  /** A closer wins the close. */
  lemma CloserWins(r: State, s: State, t: Tid, c: Caller) returns (s': State)
    requires Reaches(r, s) && t in s.threads && s.threads[t] == Closing(c, CStale)
    requires !s.mem.closed && s.mem.staleMu == None
    ensures Reaches(r, s') && s' == s.(mem := s'.mem, threads := s'.threads, win := s'.win)
    ensures s'.threads == s.threads[t := Closing(c, CWon(LOCK))]
    ensures s'.mem == s.mem.(staleMu := Some(t), closed := true) && s'.win == Winner(LOCK, t, c)
  {
    hide Reaches;
    var a := To(s.(mem := s.mem.(staleMu := Some(t))), t, Closing(c, CSwap));
    ThreadMoves(r, s, a, t);
    s' := Advance(a.(mem := a.mem.(closed := true), win := Winner(0, t, c)), t, c, LOCK);
    ThreadMoves(r, a, s', t);
  }

  /** It closes the queue and the channels under the mutex. */
  lemma WinnerShuts(r: State, s: State, t: Tid, c: Caller) returns (s': State)
    requires Reaches(r, s) && t in s.threads && s.threads[t] == Closing(c, CWon(LOCK))
    requires s.mem.lock == None && !s.mem.closeChClosed && !s.mem.flushChClosed
    ensures Reaches(r, s') && s' == s.(mem := s'.mem, threads := s'.threads, win := s'.win)
    ensures s'.threads == s.threads[t := Closing(c, CWon(UNLOCK))]
    ensures s'.mem == s.mem.(lock := Some(t), queueClosed := true, closeChClosed := true, flushChClosed := true)
    ensures s'.win == s.win.(phase := UNLOCK)
  {
    hide Reaches;
    var a := Advance(Locked(s, t), t, c, QUEUE);
    ThreadMoves(r, s, a, t);
    var b := Advance(a.(mem := a.mem.(queueClosed := true)), t, c, CLOSECH);
    ThreadMoves(r, a, b, t);
    var d := Advance(Faulted(b.(mem := b.mem.(closeChClosed := true)), b.mem.closeChClosed), t, c, FLUSHCH);
    ThreadMoves(r, b, d, t);
    s' := Advance(Faulted(d.(mem := d.mem.(flushChClosed := true)), d.mem.flushChClosed), t, c, UNLOCK);
    ThreadMoves(r, d, s', t);
  }

  /** It reaches the Wait. */
  lemma WinnerWaits(r: State, s: State, t: Tid, c: Caller) returns (s': State)
    requires Reaches(r, s) && t in s.threads && s.threads[t] == Closing(c, CWon(UNLOCK))
    ensures Reaches(r, s') && s' == s.(mem := s'.mem, threads := s'.threads, win := s'.win, past := true, ops := s'.ops)
    ensures s'.threads == s.threads[t := Closing(c, CWon(WAIT))]
    ensures s'.mem == s.mem.(lock := None) && s'.win == s.win.(phase := WAIT)
  {
    hide Reaches;
    var a := Advance(Unlocked(s), t, c, PAST);
    ThreadMoves(r, s, a, t);
    s' := Advance(Did(a.(past := true), t, SetDeadline), t, c, WAIT);
    ThreadMoves(r, a, s', t);
  }

  /** The flush loop finds its channel closed and is done. */
  lemma FlushLoopLeaves(r: State, s: State) returns (s': State)
    requires Reaches(r, s) && FLUSHLOOP in s.threads && s.threads[FLUSHLOOP] == Idle
    requires s.mem.flushChClosed && s.mem.tokens == 0 && s.mem.wg > 0
    ensures Reaches(r, s') && s' == s.(mem := s.mem.(wg := s.mem.wg - 1), threads := s.threads[FLUSHLOOP := Exited])
  {
    hide Reaches;
    var a := To(s, FLUSHLOOP, Leaving(false));
    ThreadMoves(r, s, a, FLUSHLOOP);
    s' := To(Faulted(a.(mem := a.mem.(wg := a.mem.wg - 1)), false), FLUSHLOOP, Exited);
    ThreadMoves(r, a, s', FLUSHLOOP);
  }

  /** Only now is the ping loop added and started. */
  lemma PingLoopStarts(r: State, s: State) returns (s': State)
    requires Reaches(r, s) && s.boot == READING && s.mem.wg == 0
    ensures Reaches(r, s') && s' == s.(boot := MADE, mem := s.mem.(wg := 1), threads := s.threads[PINGLOOP := Idle])
  {
    hide Reaches;
    var a := s.(boot := 5, mem := s.mem.(wg := 1));
    BootMoves(r, s, a);
    s' := To(a.(boot := 6), PINGLOOP, Idle);
    BootMoves(r, a, s');
  }

  lemma StartIsInitial(max: uint32, s: State)
    requires Reaches(Start(max), s)
    ensures Reachable(s)
  {
    hide Reaches;
    assert Init(Start(max));
  }

  /** The winner's Wait need not cover the ping loop: there is a run in which the Wait
      has returned and the ping loop is running, counted by the wait group. */
  lemma LatePing(max: uint32) returns (s: State)
    ensures Reachable(s) && EMPTY <= s.win.phase && s.mem.wg == 1
    ensures PINGLOOP in s.threads && Counted(s.threads[PINGLOOP])
  {
    hide Reaches, Reachable;
    var r := Start(max);
    s := TwoStarted(r);
    s := ReadLoopLeaves(r, s);
    s := CloserWins(r, s, READLOOP, ByError);
    s := WinnerShuts(r, s, READLOOP, ByError);
    s := WinnerWaits(r, s, READLOOP, ByError);
    s := FlushLoopLeaves(r, s);
    var a := Advance(s, READLOOP, ByError, EMPTY);
    ThreadMoves(r, s, a, READLOOP);
    s := PingLoopStarts(r, a);
    StartIsInitial(max, s);
  }

  // A zero count that means nothing

  /** From a zero count before the ping loop is added, on a connection that is open with
      the mutex free, the ping loop goes on to use the connection. */
  lemma PingTouches(r: State, s: State) returns (s': State)
    requires Reaches(r, s) && s.boot == READING && s.mem.wg == 0 && s.mem.lock == None && !s.mem.closed
    ensures Reaches(r, s') && s'.ops == s.ops + [(PINGLOOP, SetDeadline)] && s'.win == s.win && !s'.mem.closed
  {
    hide Reaches;
    var t := PINGLOOP;
    var a := PingLoopStarts(r, s);
    var b := To(a, t, Writing(PINGPacket, WLock));
    ThreadMoves(r, a, b, t);
    var c := To(Locked(b, t), t, Writing(PINGPacket, WCheck));
    ThreadMoves(r, b, c, t);
    var d := To(c, t, Writing(PINGPacket, WDeadline));
    ThreadMoves(r, c, d, t);
    s' := To(Did(d, t, SetDeadline), t, Writing(PINGPacket, WHeader));
    ThreadMoves(r, d, s', t);
  }

  /** A writer takes the mutex and buffers an empty frame. */
  lemma WriterBuffers(r: State, s: State, t: Tid, p: Packet) returns (s': State)
    requires Reaches(r, s) && t in s.threads && s.threads[t] == Writing(p, WLock) && p.contentLength == 0
    requires s.mem.lock == None && !s.mem.closed && !s.out.broken && s.mem.tokens == 0
    ensures Reaches(r, s') && s' == s.(mem := s'.mem, threads := s'.threads, out := s'.out, ops := s'.ops)
    ensures s'.mem == s.mem.(lock := Some(t)) && s'.threads == s.threads[t := Writing(p, WSend)] && s'.out.buffered != []
    ensures s'.out == s.out.(buffered := s.out.buffered + HeaderBytes(PacketHeader(p)), order := s.out.order + [p],
                             inflight := [p], owed := [], unsignalled := true)
  {
    hide Reaches, HeaderBytes;
    var b := To(Locked(s, t), t, Writing(p, WCheck));
    ThreadMoves(r, s, b, t);
    var c := To(b, t, Writing(p, WDeadline));
    ThreadMoves(r, b, c, t);
    var d := To(Did(c, t, SetDeadline), t, Writing(p, WHeader));
    ThreadMoves(r, c, d, t);
    s' := HeaderGoes(r, d, t, p);
  }

  lemma HeaderGoes(r: State, s: State, t: Tid, p: Packet) returns (s': State)
    requires Reaches(r, s) && t in s.threads && s.threads[t] == Writing(p, WHeader)
    requires !s.out.broken && p.contentLength == 0 && s.mem.tokens == 0
    ensures Reaches(r, s') && s' == s.(threads := s'.threads, out := s'.out, ops := s'.ops)
    ensures s'.threads == s.threads[t := Writing(p, WSend)] && s'.out.buffered != []
    ensures s'.out == s.out.(buffered := s.out.buffered + HeaderBytes(PacketHeader(p)), order := s.out.order + [p],
                             inflight := [p], owed := [], unsignalled := true)
  {
    hide Reaches;
    var o, data := s.out, HeaderBytes(PacketHeader(p));
    var o' := o.(buffered := o.buffered + data, order := o.order + [p], inflight := [p], owed := p.content, unsignalled := true);
    assert o.wire + (o.buffered + data) == o.wire + o.buffered + data;
    assert HeaderWritten(o, o', p);
    hide HeaderWritten, HeaderFailed, HeaderBytes;
    var a := To(Did(s.(out := o'), t, Write), t, Writing(p, WContent));
    ThreadMoves(r, s, a, t);
    var b := To(a.(out := a.out.(owed := [])), t, Writing(p, WLen));
    ThreadMoves(r, a, b, t);
    s' := To(b, t, Writing(p, WSend));
    ThreadMoves(r, b, s', t);
  }

  /** It signals the flush loop and goes on. */
  lemma WriterSignals(r: State, s: State, t: Tid, p: Packet) returns (s': State)
    requires Reaches(r, s) && t in s.threads && s.threads[t] == Writing(p, WSend) && s.mem.tokens == 0 && !s.mem.flushChClosed
    ensures Reaches(r, s') && s' == s.(mem := s'.mem, threads := s'.threads, out := s'.out)
    ensures s'.out == s.out.(unsignalled := false, accepted := s.out.accepted + [p], inflight := [])
    ensures s'.mem == s.mem.(lock := None, tokens := 1) && s'.threads == s.threads[t := Idle]
  {
    hide Reaches;
    var a := To(Faulted(s.(mem := s.mem.(tokens := 1), out := s.out.(unsignalled := false)), s.mem.flushChClosed),
                t, Writing(p, WUnlock));
    ThreadMoves(r, s, a, t);
    s' := To(Unlocked(a.(out := a.out.(accepted := a.out.accepted + [p], inflight := []))), t, Idle);
    ThreadMoves(r, a, s', t);
  }

  /** The flush loop takes the token and fails to flush. */
  lemma FlushLoopFlushes(r: State, s: State) returns (s': State)
    requires Reaches(r, s) && FLUSHLOOP in s.threads && s.threads[FLUSHLOOP] == Idle
    requires s.mem.lock == None && !s.mem.closed && s.mem.tokens == 1 && s.out.buffered != []
    ensures Reaches(r, s') && s'.boot == s.boot && s'.win == s.win
    ensures s'.mem == s.mem.(tokens := 0, lock := Some(FLUSHLOOP)) && s'.threads == s.threads[FLUSHLOOP := Flushing(FFail)]
  {
    hide Reaches;
    var t := FLUSHLOOP;
    var a := To(s.(mem := s.mem.(tokens := 0)), t, Flushing(FLock));
    ThreadMoves(r, s, a, t);
    var b := To(Locked(a, t), t, Flushing(FCheck));
    ThreadMoves(r, a, b, t);
    var c := To(b, t, Flushing(FBuffered));
    ThreadMoves(r, b, c, t);
    s' := To(Did(c.(out := c.out.(ioError := true)), t, SetDeadline), t, Flushing(FFail));
    ThreadMoves(r, c, s', t);
  }

  /** It is done. */
  lemma FlushLoopFails(r: State, s: State) returns (s': State)
    requires Reaches(r, s) && FLUSHLOOP in s.threads && s.threads[FLUSHLOOP] == Flushing(FFail) && s.mem.wg > 0
    ensures Reaches(r, s') && s'.boot == s.boot && s'.win == s.win
    ensures s'.mem == s.mem.(lock := None, wg := s.mem.wg - 1)
    ensures s'.threads == s.threads[FLUSHLOOP := Closing(ByError, CStale)]
  {
    hide Reaches;
    var t := FLUSHLOOP;
    var a := To(Unlocked(s), t, Leaving(true));
    ThreadMoves(r, s, a, t);
    s' := To(Faulted(a.(mem := a.mem.(wg := a.mem.wg - 1)), false), t, Closing(ByError, CStale));
    ThreadMoves(r, a, s', t);
  }

  /** A zero count need not be the end: there is a run in which the flush loop and the read
      loop have failed and are done before the ping loop is added, nobody has closed the
      connection yet, and the ping loop then uses it. */
  lemma ZeroTooEarly(max: uint32) returns (s: State, s': State)
    ensures Reachable(s) && s.mem.wg == 0 && s.boot == READING && !s.mem.closed
    ensures Reaches(s, s') && s'.ops == s.ops + [(PINGLOOP, SetDeadline)] && !s'.mem.closed
  {
    hide Reaches, Reachable, HeaderBytes;
    var r := Start(max);
    s := TwoStarted(r);
    var a := To(s, READLOOP, Writing(PONGPacket, WLock));
    assert ReadLoopStep(s, a, READLOOP, Writing(PONGPacket, WLock));
    ThreadMoves(r, s, a, READLOOP);
    s := WriterBuffers(r, a, READLOOP, PONGPacket);
    s := WriterSignals(r, s, READLOOP, PONGPacket);
    s := FlushLoopFlushes(r, s);
    s := FlushLoopFails(r, s);
    s := ReadLoopLeaves(r, s);
    StartIsInitial(max, s);
    Here(s);
    s' := PingTouches(s, s);
  }
}
