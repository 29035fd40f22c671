/** Packet ownership over every run: one place for each packet, one return to the pool,
    and exactly which steps lose a packet. */
module DispatchTheorems {
  import opened Options
  import opened Dispatch
  import opened DispatchPackets
  import Wire
  import ReadLoop
  import DispatchControl

  /** In every run no packet can be found at two places, be it the pool, a read loop, the
      queue of a connection, a stream, a dispatcher or a handler. */
  lemma OnePlace(run: seq<State>, i: nat, x: Pid, p: Place, q: Place)
    requires IsRun(run) && i < |run| && Found(run[i], x, p) && Found(run[i], x, q)
    ensures p == q
  {
    hide IsRun, PacketsOk, Found;
    RunKeepsPackets(run, i);
    FoundWhere(run[i], x, p);
    FoundWhere(run[i], x, q);
  }

  /** Nor is it found twice at one place: the pool holds it at most once, a queue at most
      once. */
  lemma OnceThere(run: seq<State>, i: nat, x: Pid)
    requires IsRun(run) && i < |run|
    ensures run[i].mem.pool[x] <= 1
    ensures forall c :: c in run[i].mem.queues ==> multiset(run[i].mem.queues[c])[x] <= 1
  {
    hide IsRun, Placed, ReaderOk, DispatcherOk, HandlerOk;
    RunKeepsPackets(run, i);
    forall c | c in run[i].mem.queues
      ensures multiset(run[i].mem.queues[c])[x] <= 1
    {
      assert QueueOk(run[i].mem, c);
      Distinct(run[i].mem.queues[c], x);
    }
  }

  lemma {:induction false} Distinct(q: seq<Pid>, x: Pid)
    requires forall i, j :: 0 <= i < j < |q| ==> q[i] != q[j]
    ensures multiset(q)[x] <= 1
  {
    if q != [] {
      assert q == [q[0]] + q[1..];
      Distinct(q[1..], x);
    }
  }

  /** Every dispatched packet goes back to the pool exactly once on every path: not
      before its handler is through with it, and once by the time the handler has
      counted itself done. */
  lemma ReturnedOnce(run: seq<State>, i: nat, h: Hid)
    requires IsRun(run) && i < |run| && h in run[i].ctl.handlers
    ensures var r := run[i].ctl.handlers[h];
      && (Holds(r.at) ==> r.puts == 0 && run[i].mem.pool[r.packet] == 0)
      && (!Holds(r.at) ==> r.puts == 1)
  {
    hide IsRun, ConnsOk, Placed;
    RunKeepsPackets(run, i);
    assert HandlerOk(run[i].mem, h, run[i].ctl.handlers[h]);
  }

  /** No step puts a packet into the pool that is there already. */
  lemma PutIsFresh(run: seq<State>, i: nat, x: Pid)
    requires IsRun(run) && i + 1 < |run| && run[i + 1].mem.pool[x] > run[i].mem.pool[x]
    ensures run[i].mem.pool[x] == 0 && run[i + 1].mem.pool[x] == 1
  {
    hide IsRun, ConnsOk, Placed, HandlerOk;
    RunKeepsPackets(run, i + 1);
  }

  // What becomes of a fresh answer

  /** Handler h answers with the fresh packet x. */
  predicate Answers(s: State, h: Hid, x: Pid) {
    h in s.ctl.handlers && s.ctl.handlers[h].out == Some(x) && x != s.ctl.handlers[h].packet
  }

  /** The answer x of handler h has the wrong length and is given up. */
  ghost predicate AnswerGivenUp(s: State, s': State, h: Hid, x: Pid) {
    Answers(s, h, x) && s.ctl.handlers[h].at.Testing? && !s.ctl.handlers[h].fits && TestStep(s, s', h)
  }

  /** The answer x of handler h was written, or failed to be, and is put back. */
  predicate AnswerReturned(s: State, s': State, h: Hid, x: Pid) {
    && Answers(s, h, x) && s.ctl.handlers[h].fits && s.mem.pool[x] == 0 && s'.mem.pool[x] == 1
    && h in s'.ctl.handlers && s'.ctl.handlers[h] == s.ctl.handlers[h].(out := None, at := PutIn)
  }

  lemma AnswerStep(s: State, s': State, h: Hid, x: Pid)
    requires PacketsOk(s) && Answers(s, h, x) && HandlerStep(s, s', h) && !Answers(s', h, x)
    ensures AnswerReturned(s, s', h, x) || AnswerGivenUp(s, s', h, x)
  {
    hide Placed, ConnsOk, Get, HandlerCloseStep, HandlerEndStep, FrameControl;
    assert HandlerOk(s.mem, h, s.ctl.handlers[h]);
    if s.ctl.handlers[h].conn in s.ctl.conns {
      if HandlerCloseStep(s, s', h) {
        CloseShape(s, s', h);
      } else if HandlerEndStep(s, s', h) {
        EndShape(s, s', h);
      }
    }
  }

  /** Nobody else takes it away. */
  lemma OthersLeaveAnswer(s: State, s': State, h: Hid, x: Pid)
    requires PacketsOk(s) && DispatchControl.Inv(s) && Answers(s, h, x) && Next(s, s') && !HandlerStep(s, s', h)
    ensures Answers(s', h, x)
  {
    hide SharedOk, ConnsOk, Placed, HandlerStep, DispatchControl.WaitOk, DispatchControl.HandlerOk;
    assert HandlerOk(s.mem, h, s.ctl.handlers[h]);
    assert !s.ctl.handlers[h].at.Granted?;
    hide PacketsOk, HandlerOk, DispatcherStep;
    if g :| g in s.ctl.handlers && HandlerStep(s, s', g) {
      OtherHandlers(s, s', g, h);
    } else if c :| c in s.ctl.conns && DispatcherStep(s, s', c) {
      assert DispatchControl.ConnOk(s.ctl, c);
      DispatcherLeavesAnswer(s, s', c, h);
    }
  }

  lemma DispatcherLeavesAnswer(s: State, s': State, c: Cid, h: Hid)
    requires c in s.ctl.conns && DispatchControl.ConnOk(s.ctl, c) && DispatcherStep(s, s', c)
    requires h in s.ctl.handlers && !s.ctl.handlers[h].at.Granted?
    ensures h in s'.ctl.handlers && s'.ctl.handlers[h] == s.ctl.handlers[h]
  {
    hide Dispatch.Move, Pop, DispatchControl.NotifierOk;
  }

  lemma OtherHandlers(s: State, s': State, g: Hid, h: Hid)
    requires g in s.ctl.handlers && HandlerStep(s, s', g) && h != g && h in s.ctl.handlers
    ensures h in s'.ctl.handlers && s'.ctl.handlers[h] == s.ctl.handlers[h]
  {
    hide Get, Put, Dispatch.Move;
  }

  /** A fresh answer stays in its handler's hands until it goes back to the pool, exactly
      if its length is right, or is given up, exactly if it is wrong. */
  lemma AnswerFate(run: seq<State>, i: nat, h: Hid, x: Pid)
    requires IsRun(run) && i + 1 < |run| && Answers(run[i], h, x) && !Answers(run[i + 1], h, x)
    ensures run[i].ctl.handlers[h].fits <==> AnswerReturned(run[i], run[i + 1], h, x)
    ensures !run[i].ctl.handlers[h].fits <==> AnswerGivenUp(run[i], run[i + 1], h, x)
  {
    RunKeepsPackets(run, i);
    DispatchControl.RunKeepsInv(run, i);
    assert Next(run[i], run[i + 1]);
    hide IsRun, Next, PacketsOk, DispatchControl.Inv, HandlerStep, TestStep;
    if HandlerStep(run[i], run[i + 1], h) {
      AnswerStep(run[i], run[i + 1], h, x);
    } else {
      OthersLeaveAnswer(run[i], run[i + 1], h, x);
    }
  }

  // What becomes of the read loop's packet

  /** Where the packet of a frame goes: data to the end of the connection's queue, stream
      data to its stream, and back to the pool what PING, PONG and stream closes were read
      into, and stream data that nobody handles. */
  lemma ReaderDelivers(run: seq<State>, i: nat, c: Cid)
    requires IsRun(run) && i + 1 < |run| && HandOnStep(run[i], run[i + 1], c)
    ensures var s, s', x, f := run[i], run[i + 1], run[i].mem.readers[c].packet, run[i].mem.readers[c].frame;
      f.outcome.Got? ==>
        && (f.outcome.event.Data? && f.taken ==> c in s'.mem.queues && s'.mem.queues[c] == s.mem.queues[c] + [x])
        && (f.outcome.event.StreamData? && f.taken && f.handler ==> x in s'.mem.streamed)
        && (f.outcome.event.Ping? && f.taken ==> x in s'.mem.pool)
        && (f.outcome.event.Pong? || f.outcome.event.StreamClose? ==> x in s'.mem.pool)
        && (f.outcome.event.StreamData? && !f.handler ==> x in s'.mem.pool)
  {
  }

  /** Dispatchers are given packets in the order they arrived: at every moment all that has
      arrived is what ReadPacket has given out, and then what is queued. */
  lemma FirstInFirstOut(run: seq<State>, i: nat, c: Cid)
    requires IsRun(run) && i < |run| && c in run[i].mem.queues
    ensures c in run[i].mem.arrived && c in run[i].mem.fetched
    ensures run[i].mem.arrived[c] == run[i].mem.fetched[c] + run[i].mem.queues[c]
  {
    hide IsRun, Placed, SharedOk, HandlerOk;
    RunKeepsPackets(run, i);
    assert QueueOk(run[i].mem, c);
  }

  /** A dispatcher that has just read a packet holds the one given out last. */
  lemma HoldsLastFetched(run: seq<State>, i: nat, c: Cid)
    requires IsRun(run) && i + 1 < |run| && c in run[i].ctl.conns && ReadStep(run[i], run[i + 1], c)
    requires c in run[i + 1].ctl.conns && run[i + 1].ctl.conns[c].at.Holding?
    ensures c in run[i].mem.fetched && c in run[i + 1].mem.fetched
    ensures run[i + 1].mem.fetched[c] == run[i].mem.fetched[c] + [run[i + 1].ctl.conns[c].at.packet]
  {
    hide IsRun;
  }

  // Losing packets

  /** Packet x was somewhere and is nowhere. */
  ghost predicate Lost(s: State, s': State, x: Pid) {
    (exists p :: Found(s, x, p)) && (forall p :: !Found(s', x, p))
  }

  /** A limited dispatcher's context ends while it waits for a token with x in hand. */
  ghost predicate DispatcherGivesUp(s: State, s': State, c: Cid, x: Pid) {
    && s.concurrency > 1 && c in s.ctl.conns && s.ctl.conns[c].at == Holding(x) && s.ctl.conns[c].cancelled
    && s' == s.(ctl := SetConn(s.ctl, c, s.ctl.conns[c].(at := Shutting(true), quit := true)), mem := Dispatch.Move(s.mem, x, Dropped))
  }

  /** The frame ends the read loop: it is rejected, or cut short within its content, or its
      PONG cannot be written, or its queue refuses it. */
  predicate EndsLoop(f: Frame) {
    || f.outcome.Bad? || f.outcome.Short?
    || (!f.taken && (f.outcome.event.Ping? || f.outcome.event.Data? || (f.outcome.event.StreamData? && f.handler)))
  }

  lemma EndsLoopExactly(f: Frame, c: Cid)
    ensures Destination(f, c) == Dropped <==> EndsLoop(f)
  {
  }

  /** A read loop ends on such a frame with x in hand. */
  ghost predicate ReaderGivesUp(s: State, s': State, c: Cid, x: Pid) {
    && c in s.mem.readers && s.mem.readers[c].Has? && s.mem.readers[c].packet == x && EndsLoop(s.mem.readers[c].frame)
    && s' == s.(mem := Dispatch.Move(SetReader(s.mem, c, Stopped), x, Dropped))
  }

  ghost predicate GivesUp(s: State, s': State, x: Pid) {
    || (exists c :: DispatcherGivesUp(s, s', c, x))
    || (exists h :: AnswerGivenUp(s, s', h, x))
    || (exists c :: ReaderGivesUp(s, s', c, x))
  }

  /** A step that does not make packet x disappear. */
  predicate Spares(s: State, s': State, x: Pid) {
    x in s.mem.place && s.mem.place[x] != Dropped ==> x in s'.mem.place && s'.mem.place[x] != Dropped
  }

  lemma RunSpares(s: State, s': State, h: Hid, y: Pid, fits: bool, asked: bool, x: Pid)
    requires h in s.ctl.handlers && RunStep(s, s', h, y, fits, asked)
    ensures Spares(s, s', x)
  {
    hide Available;
  }

  lemma PutSpares(s: State, s': State, h: Hid, x: Pid)
    requires h in s.ctl.handlers && PutStep(s, s', h)
    ensures Spares(s, s', x)
  {
  }

  lemma TestSpares(s: State, s': State, h: Hid, x: Pid)
    requires h in s.ctl.handlers && TestStep(s, s', h) && !AnswerGivenUp(s, s', h, x)
    ensures Spares(s, s', x)
  {
  }

  lemma HandlerSpares(s: State, s': State, h: Hid, x: Pid)
    requires h in s.ctl.handlers && HandlerStep(s, s', h) && !AnswerGivenUp(s, s', h, x)
    ensures Spares(s, s', x)
  {
    hide RunStep, TestStep, PutStep, HandlerCloseStep, HandlerEndStep, FrameControl, AnswerGivenUp, Holds;
    if y, fits, asked :| RunStep(s, s', h, y, fits, asked) {
      RunSpares(s, s', h, y, fits, asked, x);
    } else if TestStep(s, s', h) {
      TestSpares(s, s', h, x);
    } else if PutStep(s, s', h) {
      PutSpares(s, s', h, x);
    } else if HandlerCloseStep(s, s', h) {
      CloseShape(s, s', h);
    } else {
      EndShape(s, s', h);
    }
  }

  lemma LaunchSpares(s: State, s': State, c: Cid, h: Hid, x: Pid)
    requires c in s.ctl.conns && LaunchStep(s, s', c, h) && !DispatcherGivesUp(s, s', c, x)
    ensures Spares(s, s', x)
  {
  }

  lemma ReadSpares(s: State, s': State, c: Cid, x: Pid)
    requires c in s.ctl.conns && ReadStep(s, s', c)
    ensures Spares(s, s', x)
  {
  }

  lemma FinishSpares(s: State, s': State, c: Cid)
    requires c in s.ctl.conns && FinishStep(s, s', c)
    ensures s'.mem == s.mem
  {
  }

  lemma DispatcherSpares(s: State, s': State, c: Cid, x: Pid)
    requires c in s.ctl.conns && DispatcherStep(s, s', c) && !DispatcherGivesUp(s, s', c, x)
    ensures Spares(s, s', x)
  {
    hide ReadStep, LaunchStep, FinishStep, DispatcherGivesUp;
    if ReadStep(s, s', c) {
      ReadSpares(s, s', c, x);
    } else if h :| LaunchStep(s, s', c, h) {
      LaunchSpares(s, s', c, h, x);
    } else {
      FinishSpares(s, s', c);
    }
  }

  lemma ReaderSpares(s: State, s': State, c: Cid, x: Pid)
    requires HandOnStep(s, s', c) && !ReaderGivesUp(s, s', c, x)
    ensures Spares(s, s', x)
  {
    hide Destination, EndsLoop;
    EndsLoopExactly(s.mem.readers[c].frame, c);
    HereNotElsewhere(s.mem.readers[c].frame, c);
  }

  lemma HereNotElsewhere(f: Frame, c: Cid)
    ensures Destination(f, c) in {InPool, InQueue(c), InStream, Dropped}
  {
  }

  lemma NextSpares(s: State, s': State, x: Pid)
    requires Next(s, s') && !GivesUp(s, s', x)
    ensures Spares(s, s', x)
  {
    hide HandlerStep, DispatcherStep, HandOnStep, AnswerGivenUp, DispatcherGivesUp, ReaderGivesUp;
    if h :| h in s.ctl.handlers && HandlerStep(s, s', h) {
      HandlerSpares(s, s', h, x);
    } else if c :| c in s.ctl.conns && DispatcherStep(s, s', c) {
      DispatcherSpares(s, s', c, x);
    } else if c :| HandOnStep(s, s', c) {
      ReaderSpares(s, s', c, x);
    }
  }

  /** Giving up a packet takes it from where it was, to nowhere. */
  lemma GivesUpMoves(s: State, s': State, x: Pid)
    requires GivesUp(s, s', x)
    ensures DispatchPackets.At(s'.mem, x, Dropped) && exists p :: Found(s, x, p)
  {
    if c :| DispatcherGivesUp(s, s', c, x) {
      assert Found(s, x, WithDispatcher(c));
    } else if h :| AnswerGivenUp(s, s', h, x) {
      assert Found(s, x, WithHandler(h));
    } else {
      var c :| ReaderGivesUp(s, s', c, x);
      assert Found(s, x, WithReader(c));
    }
  }

  lemma LostStep(s: State, s': State, x: Pid)
    requires PacketsOk(s) && PacketsOk(s') && Next(s, s')
    ensures Lost(s, s', x) <==> GivesUp(s, s', x)
  {
    hide Next, GivesUp, SharedOk, ConnsOk, HandlerOk, Found;
    if GivesUp(s, s', x) {
      GivesUpMoves(s, s', x);
      forall p
        ensures !Found(s', x, p)
      {
        if Found(s', x, p) {
          FoundWhere(s', x, p);
          NeverFound(s', x);
        }
      }
    } else if p :| Found(s, x, p) {
      FoundWhere(s, x, p);
      NeverFound(s, x);
      NextSpares(s, s', x);
      assert Found(s', x, s'.mem.place[x]);
    }
  }

  lemma NeverFound(s: State, x: Pid)
    ensures !Found(s, x, Dropped)
  {
  }

  /** A packet that could be found and then cannot be found anywhere was given up in that
      step, by a limited dispatcher whose context has ended, by a handler whose fresh
      answer has the wrong length, or by a read loop on an error exit; and each of these
      steps loses it. No other step of any run loses a packet. */
  lemma LostIff(run: seq<State>, i: nat, x: Pid)
    requires IsRun(run) && i + 1 < |run|
    ensures Lost(run[i], run[i + 1], x) <==> GivesUp(run[i], run[i + 1], x)
  {
    RunKeepsPackets(run, i);
    RunKeepsPackets(run, i + 1);
    assert Next(run[i], run[i + 1]);
    hide IsRun, Next, PacketsOk, GivesUp, Lost;
    LostStep(run[i], run[i + 1], x);
  }

  // Packets left behind

  /** The dispatcher of connection c has returned. */
  predicate Left(s: State, c: Cid) {
    c in s.ctl.conns && s.ctl.conns[c].at.Returned? && c in s.mem.queues
  }

  predicate Stays(s: State, s': State, c: Cid)
    requires Left(s, c)
  {
    Left(s', c) && s.mem.queues[c] <= s'.mem.queues[c]
  }

  lemma HandlerStays(s: State, s': State, h: Hid, c: Cid)
    requires h in s.ctl.handlers && HandlerStep(s, s', h) && Left(s, c)
    ensures Stays(s, s', c)
  {
    hide Available, HandlerCloseStep, HandlerEndStep;
    if s.ctl.handlers[h].conn in s.ctl.conns {
      if HandlerCloseStep(s, s', h) {
        CloseShape(s, s', h);
        ConnsStay(s, s', h, c);
      } else if HandlerEndStep(s, s', h) {
        EndShape(s, s', h);
        ConnsStay(s, s', h, c);
      }
    }
  }

  lemma ConnsStay(s: State, s': State, h: Hid, c: Cid)
    requires s'.mem == s.mem && FrameControl(s, s', {h}, {}) && Left(s, c)
    ensures Stays(s, s', c)
  {
  }

  lemma LaunchStays(s: State, s': State, d: Cid, h: Hid, c: Cid)
    requires d in s.ctl.conns && LaunchStep(s, s', d, h) && Left(s, c)
    ensures Stays(s, s', c)
  {
  }

  lemma ReadStays(s: State, s': State, d: Cid, c: Cid)
    requires d in s.ctl.conns && (ReadStep(s, s', d) || FinishStep(s, s', d)) && Left(s, c)
    ensures Stays(s, s', c)
  {
  }

  lemma DispatcherStays(s: State, s': State, d: Cid, c: Cid)
    requires d in s.ctl.conns && DispatcherStep(s, s', d) && Left(s, c)
    ensures Stays(s, s', c)
  {
    hide ReadStep, LaunchStep, FinishStep, Left, Stays;
    if h :| LaunchStep(s, s', d, h) {
      LaunchStays(s, s', d, h, c);
    } else {
      ReadStays(s, s', d, c);
    }
  }

  lemma NextStays(s: State, s': State, c: Cid)
    requires Next(s, s') && Left(s, c)
    ensures Stays(s, s', c)
  {
    hide HandlerStep, DispatcherStep, AcceptStep, FetchStep, HandOnStep, CancelStep, Left, Stays;
    if h :| h in s.ctl.handlers && HandlerStep(s, s', h) {
      HandlerStays(s, s', h, c);
    } else if d :| d in s.ctl.conns && DispatcherStep(s, s', d) {
      DispatcherStays(s, s', d, c);
    } else if d :| AcceptStep(s, s', d) {
      AcceptStays(s, s', d, c);
    } else if d, x, f :| FetchStep(s, s', d, x, f) {
      FetchStays(s, s', d, x, f, c);
    } else if d :| HandOnStep(s, s', d) {
      HandOnStays(s, s', d, c);
    } else {
      var d :| CancelStep(s, s', d);
      CancelStays(s, s', d, c);
    }
  }

  lemma AcceptStays(s: State, s': State, d: Cid, c: Cid)
    requires AcceptStep(s, s', d) && Left(s, c)
    ensures Stays(s, s', c)
  {
  }

  lemma FetchStays(s: State, s': State, d: Cid, x: Pid, f: Frame, c: Cid)
    requires FetchStep(s, s', d, x, f) && Left(s, c)
    ensures Stays(s, s', c)
  {
  }

  lemma HandOnStays(s: State, s': State, d: Cid, c: Cid)
    requires HandOnStep(s, s', d) && Left(s, c)
    ensures Stays(s, s', c)
  {
    hide Destination;
  }

  lemma CancelStays(s: State, s': State, d: Cid, c: Cid)
    requires CancelStep(s, s', d) && Left(s, c)
    ensures Stays(s, s', c)
  {
  }

  /** Packets still queued when a dispatcher returns stay in that queue: they never go
      back to the pool. */
  lemma {:induction false} QueueLeftBehind(run: seq<State>, i: nat, j: nat, c: Cid)
    requires IsRun(run) && i <= j < |run| && Left(run[i], c)
    ensures Left(run[j], c) && run[i].mem.queues[c] <= run[j].mem.queues[c]
    ensures forall x :: x in run[i].mem.queues[c] ==> run[j].mem.pool[x] == 0
    decreases j - i
  {
    hide Next, Init, DispatchPackets.PacketsOk;
    if i < j {
      QueueLeftBehind(run, i, j - 1, c);
      assert Next(run[j - 1], run[(j - 1) + 1]);
      NextStays(run[j - 1], run[j], c);
    }
    forall x | x in run[i].mem.queues[c]
      ensures run[j].mem.pool[x] == 0
    {
      if x in run[j].mem.pool {
        OnePlace(run, j, x, InPool, InQueue(c));
      }
    }
  }

  // Runs that lose a packet

  ghost predicate Ends(run: seq<State>, s: State) {
    IsRun(run) && run[|run| - 1] == s
  }

  ghost predicate Reachable(s: State) {
    exists run :: Ends(run, s)
  }

  lemma Step(s: State, s': State)
    requires Reachable(s) && Next(s, s')
    ensures Reachable(s')
  {
    hide Next, Init;
    var run :| Ends(run, s);
    var more := run + [s'];
    forall i | 0 <= i < |more| - 1
      ensures Next(more[i], more[i + 1])
    {
      if i + 1 < |run| {
        assert Next(run[i], run[i + 1]);
      }
    }
    assert Ends(more, s');
  }

  lemma ReachableOk(s: State)
    requires Reachable(s)
    ensures PacketsOk(s)
  {
    hide IsRun, PacketsOk;
    var run :| Ends(run, s);
    assert run != [] by { NotEmpty(run); }
    RunKeepsPackets(run, |run| - 1);
  }

  lemma NotEmpty(run: seq<State>)
    requires IsRun(run)
    ensures run != []
  {
  }

  /** The server before its first connection. */
  function Start(concurrency: nat): State {
    State(concurrency, Control(0, map[], map[]), Packets(multiset{}, map[], map[], map[], map[], {}, map[]), false)
  }

  /** Connection 0 is accepted and its read loop has packet 0 in hand. */
  lemma ReaderHas(concurrency: nat, f: Frame) returns (s: State)
    requires concurrency != 1
    ensures Reachable(s) && s.concurrency == concurrency && s.ctl.handlers == map[] && s.ctl.limiter == 0
    ensures s.ctl.conns == map[0 := Conn(First, false, false, false, false, None, 0, false, 0)]
    ensures s.mem == Packets(multiset{}, map[0 := Has(0, f)], map[0 := []], map[0 := []], map[0 := []], {}, map[0 := WithReader(0)])
  {
    var a := Start(concurrency);
    assert Reachable(a) by { assert Ends([a], a); }
    hide Reachable, HandlerStep, DispatcherStep;
    var b := a.(ctl := SetConn(a.ctl, 0, Conn(First, false, false, false, false, None, 0, false, 0)),
                mem := a.mem.(queues := map[0 := []], readers := map[0 := Between], arrived := map[0 := []], fetched := map[0 := []]));
    assert AcceptStep(a, b, 0);
    Step(a, b);
    s := b.(mem := SetReader(Get(b.mem, 0, WithReader(0)), 0, Has(0, f)));
    assert FetchStep(b, s, 0, 0, f);
    Step(b, s);
  }

  /** The dispatcher has read packet 0. */
  lemma DispatcherHas(concurrency: nat) returns (s: State)
    requires concurrency != 1
    ensures Reachable(s) && s.concurrency == concurrency && s.ctl.handlers == map[] && s.ctl.limiter == 0
    ensures s.ctl.conns == map[0 := Conn(Holding(0), false, false, false, false, None, 0, false, 0)]
    ensures s.mem.pool == multiset{} && s.mem.place == map[0 := WithDispatcher(0)]
  {
    hide Reachable, HandlerStep;
    var f := Frame(ReadLoop.Got(Wire.Data(Wire.Packet(0, 10, 0, []))), true, false);
    var a := ReaderHas(concurrency, f);
    var b := a.(mem := HandOn(a.mem, 0, 0, InQueue(0)));
    assert HandOnStep(a, b, 0);
    Step(a, b);
    assert b.mem.queues[0] == [0];
    s := b.(ctl := SetConn(b.ctl, 0, b.ctl.conns[0].(at := Holding(0))), mem := Pop(b.mem, 0, WithDispatcher(0)));
    assert ReadStep(b, s, 0);
    assert DispatcherStep(b, s, 0);
    Step(b, s);
  }

  /** A read loop that fails with a packet in hand loses it. */
  lemma ReaderLoses() returns (s: State, s': State)
    ensures Reachable(s) && Next(s, s') && ReaderGivesUp(s, s', 0, 0) && Lost(s, s', 0)
  {
    hide Reachable, PacketsOk, Lost, HandlerStep, DispatcherStep;
    s := ReaderHas(0, Frame(ReadLoop.Bad(Wire.InvalidMagicHeader), false, false));
    s' := s.(mem := HandOn(s.mem, 0, 0, Dropped));
    assert HandOnStep(s, s', 0);
    assert ReaderGivesUp(s, s', 0, 0);
    LosesOne(s, s', 0);
  }

  /** A limited dispatcher whose context ends while it waits for a token loses a packet. */
  lemma DispatcherLoses() returns (s: State, s': State)
    ensures Reachable(s) && Next(s, s') && DispatcherGivesUp(s, s', 0, 0) && Lost(s, s', 0)
  {
    hide Reachable, PacketsOk, Lost, HandlerStep;
    var a := DispatcherHas(2);
    s := a.(ctl := SetConn(a.ctl, 0, a.ctl.conns[0].(cancelled := true)));
    assert CancelStep(a, s, 0);
    Step(a, s);
    s' := s.(ctl := SetConn(s.ctl, 0, s.ctl.conns[0].(at := Shutting(true), quit := true)), mem := Dispatch.Move(s.mem, 0, Dropped));
    assert LaunchStep(s, s', 0, 0);
    assert DispatcherStep(s, s', 0);
    assert DispatcherGivesUp(s, s', 0, 0);
    LosesOne(s, s', 0);
  }

  /** Handler 0 is inside its handler function. */
  lemma HandlerRuns() returns (s: State)
    ensures Reachable(s) && s.ctl.handlers == map[0 := Handler(0, 0, None, false, false, false, 0, Running)]
    ensures s.mem.pool == multiset{} && s.mem.place == map[0 := WithHandler(0)]
  {
    hide Reachable;
    var a := DispatcherHas(0);
    var d := a.ctl.conns[0];
    var b := a.(ctl := SetHandler(SetConn(a.ctl, 0, d.(at := Reading, wg := d.wg + 1)), 0,
                                  Handler(0, 0, None, false, false, false, 0, Ready)),
                mem := Dispatch.Move(a.mem, 0, WithHandler(0)));
    assert LaunchStep(a, b, 0, 0);
    assert DispatcherStep(a, b, 0);
    Step(a, b);
    s := b.(ctl := Dispatch.At(b.ctl, 0, Running));
    assert RunStep(b, s, 0, 0, false, false);
    assert HandlerStep(b, s, 0);
    Step(b, s);
  }

  /** A handler whose fresh answer has the wrong length loses it. */
  lemma HandlerLoses() returns (s: State, s': State)
    ensures Reachable(s) && Next(s, s') && AnswerGivenUp(s, s', 0, 1) && Lost(s, s', 1)
  {
    hide Reachable, PacketsOk, Lost, DispatcherStep;
    var a := HandlerRuns();
    var r := a.ctl.handlers[0];
    s := a.(ctl := SetHandler(a.ctl, 0, r.(out := Some(1), fits := false, asked := false, at := Testing)),
            mem := Get(a.mem, 1, WithHandler(0)));
    assert RunStep(a, s, 0, 1, false, false);
    assert HandlerStep(a, s, 0);
    Step(a, s);
    s' := s.(ctl := SetHandler(s.ctl, 0, s.ctl.handlers[0].(out := None, at := PutIn)), mem := Dispatch.Move(s.mem, 1, Dropped));
    assert TestStep(s, s', 0);
    assert HandlerStep(s, s', 0);
    assert AnswerGivenUp(s, s', 0, 1);
    LosesOne(s, s', 1);
  }

  lemma LosesOne(s: State, s': State, x: Pid)
    requires Reachable(s) && Next(s, s') && GivesUp(s, s', x)
    ensures Lost(s, s', x)
  {
    hide Reachable, Next, GivesUp, Lost, PacketsOk;
    Step(s, s');
    ReachableOk(s);
    ReachableOk(s');
    LostStep(s, s', x);
  }
}
