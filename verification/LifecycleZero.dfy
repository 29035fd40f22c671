/** A zero count of the wait group: exactly when it means that no loop will ever touch the
    connection again. */
module LifecycleZero {
  import opened MetadataCodec
  import opened Wire
  import opened Options
  import opened Lifecycle
  import opened LifecycleInvariant
  import opened LifecycleTheorems
  import opened LifecycleStart

  /** In every continuation, no loop but a winning closer operates on the connection. */
  ghost predicate Silent(s: State) {
    forall s' :: Reaches(s, s') ==> OnlyWinner(s, s')
  }

  // A final zero is the end

  ghost predicate Joined(run: seq<State>, path: seq<State>, all: seq<State>) {
    && run != [] && path != [] && |all| == |run| + |path| - 1
    && (forall i :: 0 <= i < |run| ==> all[i] == run[i])
    && (forall i :: 0 <= i < |path| ==> all[|run| - 1 + i] == path[i])
  }

  lemma JoinIsRun(run: seq<State>, path: seq<State>, r: State, s: State, s': State) returns (all: seq<State>)
    requires Init(r) && Leads(run, r, s) && Leads(path, s, s')
    ensures IsRun(all) && Joined(run, path, all)
  {
    hide Next, Init;
    all := run + path[1..];
    forall i | 0 <= i < |all| - 1
      ensures Next(all[i], all[i + 1])
    {
      if i + 1 < |run| {
        assert Next(run[i], run[i + 1]);
      } else {
        var j := i + 1 - |run|;
        assert all[i] == path[j] && all[i + 1] == path[j + 1];
        assert Next(path[j], path[j + 1]);
      }
    }
  }

  lemma FinalIsSilent(s: State)
    requires Reachable(s) && FinalZero(s)
    ensures Silent(s)
  {
    hide OnlyWinner, Init, FinalZero, Next;
    var r :| Init(r) && Reaches(r, s);
    var run :| Leads(run, r, s);
    forall s' | Reaches(s, s')
      ensures OnlyWinner(s, s')
    {
      var path :| Leads(path, s, s');
      var all := JoinIsRun(run, path, r, s, s');
      assert all[|run| - 1] == s && all[|all| - 1] == path[|path| - 1];
      hide IsRun, Leads;
      LoopsSilent(all, |run| - 1, |all| - 1);
    }
  }

  // Any other zero is not: whoever holds the mutex can let go of it

  /** How many steps the holder of the mutex is from letting go. */
  function Distance(pc: Pc): nat {
    match pc
    case Writing(_, at) =>
      (match at case WContent => 4 case WLen => 3 case WCheck => 3 case WSend => 2 case WHeader => 2 case WDeadline => 2 case _ => 1)
    case Flushing(at) => (match at case FCheck => 3 case FBuffered => 2 case FFlush => 2 case _ => 1)
    case _ => 0
  }

  /** A step that changes neither the count nor the flag, and only adds to the log. */
  predicate Mild(s: State, s': State) {
    && s'.boot == s.boot && s'.mem.wg == s.mem.wg && s'.mem.closed == s.mem.closed && s'.win == s.win
    && s.ops <= s'.ops
  }

  /** Thread t has let go of the mutex, or is closer to it. */
  predicate Nearer(s: State, s': State, t: Tid)
    requires t in s.threads
  {
    || s'.mem.lock == None
    || (s'.mem.lock == Some(t) && t in s'.threads && HoldsLock(s'.threads[t]) &&
        (s'.threads[t].Writing? || s'.threads[t].Flushing?) && Distance(s'.threads[t]) < Distance(s.threads[t]))
  }

  lemma GuardLetsGo(s: State, t: Tid, p: Packet, at: WriteAt) returns (s': State)
    requires t in s.threads && s.threads[t] == Writing(p, at) && HoldsLock(s.threads[t]) && s.mem.lock == Some(t)
    requires at.WCheck? || at.WRefuse? || at.WFail?
    ensures GuardStep(s, s', t, p, at) && Mild(s, s') && Nearer(s, s', t)
  {
    s' := match at
      case WCheck => To(s, t, Writing(p, if s.mem.closed then WRefuse else WDeadline))
      case WRefuse => To(Unlocked(s), t, AfterRefusal(t))
      case _ => To(Unlocked(s), t, Writing(p, WFailed));
  }

  lemma PutLetsGo(s: State, t: Tid, p: Packet, at: WriteAt) returns (s': State)
    requires t in s.threads && s.threads[t] == Writing(p, at) && HoldsLock(s.threads[t]) && s.mem.lock == Some(t)
    requires at.WDeadline? || at.WHeader? || at.WContent?
    ensures PutStep(s, s', t, p, at) && Mild(s, s') && Nearer(s, s', t)
  {
    var o := s.out;
    if at.WDeadline? {
      s' := To(Did(s.(out := o.(ioError := true)), t, SetDeadline), t, Writing(p, WFail));
    } else if at.WHeader? {
      var o' := o.(broken := true, ioError := true, order := if o.broken then o.order else o.order + [p]);
      assert HeaderFailed(o, o', p);
      s' := To(Did(s.(out := o'), t, Write), t, Writing(p, WFail));
    } else if p.contentLength == 0 {
      s' := To(s.(out := o.(owed := [])), t, Writing(p, WLen));
    } else {
      var o' := o.(broken := true, ioError := true, owed := [], inflight := [], unsignalled := false);
      assert ContentFailed(o, o', p);
      s' := To(Did(s.(out := o'), t, Write), t, Writing(p, WFail));
    }
  }

  lemma SignalLetsGo(s: State, t: Tid, p: Packet, at: WriteAt) returns (s': State)
    requires t in s.threads && s.threads[t] == Writing(p, at) && HoldsLock(s.threads[t]) && s.mem.lock == Some(t)
    requires at.WLen? || at.WSend? || at.WUnlock?
    ensures SignalStep(s, s', t, p, at) && Mild(s, s') && Nearer(s, s', t)
  {
    if at.WLen? {
      s' := if s.mem.tokens == 0 then To(s, t, Writing(p, WSend))
            else To(s.(out := s.out.(unsignalled := false)), t, Writing(p, WUnlock));
    } else if at.WSend? {
      s' := To(Faulted(s.(mem := s.mem.(tokens := s.mem.tokens + 1), out := s.out.(unsignalled := false)),
                       s.mem.flushChClosed), t, Writing(p, WUnlock));
    } else {
      s' := To(Unlocked(s.(out := s.out.(accepted := s.out.accepted + [p], inflight := []))), t, Idle);
    }
  }

  lemma FlushLetsGo(s: State, t: Tid, at: FlushAt) returns (s': State)
    requires t in s.threads && s.threads[t] == Flushing(at) && HoldsLock(s.threads[t]) && s.mem.lock == Some(t)
    ensures FlushStep(s, s', t, at) && Mild(s, s') && Nearer(s, s', t)
  {
    var o := s.out;
    match at
    case FCheck => s' := To(s, t, Flushing(if s.mem.closed then FFail else FBuffered));
    case FBuffered =>
      s' := if o.buffered == [] then To(s, t, Flushing(FUnlock))
            else To(Did(s.(out := o.(ioError := true)), t, SetDeadline), t, Flushing(FFail));
    case FFlush =>
      var o' := o.(broken := true, ioError := true);
      assert FlushFailed(o, o');
      s' := To(Did(s.(out := o'), t, Write), t, Flushing(FFail));
    case FUnlock => s' := To(Unlocked(s), t, Idle);
    case FFail => s' := To(Unlocked(s), t, AfterFlushError(t));
  }

  lemma HolderLetsGo(s: State, t: Tid) returns (s': State)
    requires t in s.threads && HoldsLock(s.threads[t]) && s.mem.lock == Some(t)
    requires s.threads[t].Writing? || s.threads[t].Flushing?
    ensures ThreadStep(s, s', t) && Mild(s, s') && Nearer(s, s', t)
  {
    hide Mild, Nearer, GuardStep, PutStep, SignalStep, FlushStep;
    match s.threads[t]
    case Writing(p, at) =>
      if at.WCheck? || at.WRefuse? || at.WFail? {
        s' := GuardLetsGo(s, t, p, at);
      } else if at.WDeadline? || at.WHeader? || at.WContent? {
        s' := PutLetsGo(s, t, p, at);
      } else {
        s' := SignalLetsGo(s, t, p, at);
      }
    case Flushing(at) => s' := FlushLetsGo(s, t, at);
  }

  lemma {:induction false} FreeLock(r: State, s: State, t: Tid) returns (s': State)
    requires Reaches(r, s) && t in s.threads && HoldsLock(s.threads[t]) && s.mem.lock == Some(t)
    requires s.threads[t].Writing? || s.threads[t].Flushing?
    ensures Reaches(r, s') && Mild(s, s') && s'.mem.lock == None
    decreases Distance(s.threads[t])
  {
    hide Reaches, ThreadStep, HoldsLock, Distance;
    var a := HolderLetsGo(s, t);
    ThreadMoves(r, s, a, t);
    if a.mem.lock == None {
      s' := a;
    } else {
      s' := FreeLock(r, a, t);
    }
  }

  /** The mutex of an open connection is held by a writer or a flusher. */
  lemma HolderIs(s: State)
    requires Inv(s) && !s.mem.closed && s.mem.lock.Some?
    ensures var t := s.mem.lock.value;
      t in s.threads && HoldsLock(s.threads[t]) && (s.threads[t].Writing? || s.threads[t].Flushing?)
  {
    hide Bytes, Signalled, Reads;
    assert Local(s, s.mem.lock.value);
  }

  /** The ping loop, still to be added, goes on to use the open connection. */
  lemma PingUndoes(s: State) returns (s': State)
    requires Inv(s) && s.mem.wg == 0 && s.boot == READING && !s.mem.closed
    ensures Reaches(s, s') && !OnlyWinner(s, s')
  {
    CountHolds(s);
    Here(s);
    hide Reaches, Inv;
    var a := s;
    if s.mem.lock.Some? {
      HolderIs(s);
      a := FreeLock(s, s, s.mem.lock.value);
    }
    s' := PingTouches(s, a);
    assert s'.ops[|a.ops|] == (PINGLOOP, SetDeadline);
  }

  /** Before any loop is added the read loop is still to come. */
  lemma ReadUndoes(s: State) returns (s': State)
    requires Inv(s) && s.mem.wg == 0 && s.boot == 0
    ensures Reaches(s, s') && !OnlyWinner(s, s')
  {
    CountHolds(s);
    NoThreads(s);
    hide Reaches, Inv;
    var a := TwoStarted(s);
    s' := To(Did(Did(a, READLOOP, SetDeadline), READLOOP, Read), READLOOP, Idle);
    assert ReadLoopStep(a, s', READLOOP, Idle);
    ThreadMoves(s, a, s', READLOOP);
    assert s'.ops[|s.ops|] == (READLOOP, SetDeadline);
  }

  lemma NoThreads(s: State)
    requires Booted(s.threads, s.boot) && s.boot == 0
    ensures s.threads == map[]
  {
  }

  /** What a zero count is worth: in every reachable state with a zero count, no loop but a
      winning closer ever operates on the connection again, whatever happens next, if and
      only if NewAsync has returned or the connection is closed. */
  lemma ZeroCountExactly(s: State)
    requires Reachable(s) && s.mem.wg == 0
    ensures Silent(s) <==> s.boot == MADE || s.mem.closed
  {
    hide Reaches, Reachable, OnlyWinner, Inv;
    ReachableInv(s);
    CountHolds(s);
    if s.boot == MADE || s.mem.closed {
      hide Silent;
      FinalIsSilent(s);
    } else if s.boot == READING {
      var s' := PingUndoes(s);
    } else {
      assert s.boot == 0;
      var s' := ReadUndoes(s);
    }
  }
}
