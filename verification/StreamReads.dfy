/** Readers of one stream against its closers, interleaved at every lock, atomic and
    queue operation: any number of ReadPacket calls, local and remote closes, and the
    read loop pushing. */
module StreamReads {
  import opened Wire
  import opened Options

  type Tid = nat

  const READLOOP: Tid := 0      // the only thread that pushes

  datatype Pc =
    | Idle
    | Pushing(packet: Packet)                                   // readLoop at queue.Push
    | Load | StaleLock | TakeStale | Pop | Reload               // ReadPacket
    | CloseLock | CloseSwap | CloseQueue | CloseDrain | CloseUnlock | CloseLost  // closeSend, close

  /** `phase` is history: 0 open, then how far the winning close has come, 4 when it
      has released the stale packets. */
  datatype State = State(
    staleMu: Option<Tid>,
    closed: bool,
    queueClosed: bool,
    queue: seq<Packet>,
    stale: seq<Packet>,
    offered: seq<Packet>,      // data frames of the stream the read loop has decoded
    pushed: seq<Packet>,
    refused: seq<Packet>,      // those the closed queue refused
    delivered: seq<Packet>,
    phase: nat,
    reported: bool,            // some ReadPacket returned StreamClosed
    stray: bool,               // some ReadPacket returned the queue's own error
    threads: map<Tid, Pc>)

  predicate Init(s: State) {
    s == State(None, false, false, [], [], [], [], [], [], 0, false, false, map[])
  }

  function To(s: State, t: Tid, pc: Pc): State {
    s.(threads := s.threads[t := pc])
  }

  ghost predicate ReaderStep(s: State, s': State, t: Tid, pc: Pc) {
    match pc
    case Load => s' == To(s, t, if s.closed then StaleLock else Pop)
    case StaleLock => s.staleMu == None && s' == To(s.(staleMu := Some(t)), t, TakeStale)
    case TakeStale =>
      if s.stale != [] then
        s' == To(s.(staleMu := None, stale := s.stale[1..], delivered := s.delivered + [s.stale[0]]), t, Idle)
      else
        s' == To(s.(staleMu := None, reported := true), t, Idle)
    case Pop =>
      || (s.queue != [] && s' == To(s.(queue := s.queue[1..], delivered := s.delivered + [s.queue[0]]), t, Idle))
      || (s.queueClosed && s' == To(s, t, Reload))
    case Reload =>
      s' == if s.closed then To(s, t, StaleLock) else To(s.(stray := true), t, Idle)
    case _ => false
  }

  ghost predicate CloserStep(s: State, s': State, t: Tid, pc: Pc) {
    match pc
    case CloseLock => s.staleMu == None && s' == To(s.(staleMu := Some(t)), t, CloseSwap)
    case CloseSwap =>
      s' == if s.closed then To(s, t, CloseLost) else To(s.(closed := true, phase := 1), t, CloseQueue)
    case CloseQueue => s' == To(s.(queueClosed := true, phase := 2), t, CloseDrain)
    case CloseDrain => s' == To(s.(stale := s.queue, queue := [], phase := 3), t, CloseUnlock)
    case CloseUnlock => s' == To(s.(staleMu := None, phase := 4), t, Idle)
    case CloseLost => s' == To(s.(staleMu := None), t, Idle)
    case _ => false
  }

  /** Starting a call, and the read loop's push, which a closed queue refuses. */
  ghost predicate OtherStep(s: State, s': State, t: Tid, pc: Pc) {
    match pc
    case Idle =>
      || s' == To(s, t, Load) || s' == To(s, t, CloseLock)
      || (t == READLOOP && exists p :: s' == To(s.(offered := s.offered + [p]), t, Pushing(p)))
    case Pushing(p) =>
      if s.queueClosed then s' == To(s.(refused := s.refused + [p]), t, Idle)
      else s' == To(s.(queue := s.queue + [p], pushed := s.pushed + [p]), t, Idle)
    case _ => false
  }

  ghost predicate Next(s: State, s': State) {
    || (exists t :: t !in s.threads && s' == To(s, t, Idle))
    || (exists t :: t in s.threads && ThreadStep(s, s', t))
  }

  ghost predicate ThreadStep(s: State, s': State, t: Tid)
    requires t in s.threads
  {
    var pc := s.threads[t];
    ReaderStep(s, s', t, pc) || CloserStep(s, s', t, pc) || OtherStep(s, s', t, pc)
  }

  ghost predicate IsRun(run: seq<State>) {
    && run != [] && Init(run[0])
    && forall i :: 0 <= i < |run| - 1 ==> Next(run[i], run[i + 1])
  }

  // The invariant

  predicate Holds(pc: Pc) {
    || pc.TakeStale? || pc.CloseSwap? || pc.CloseQueue? || pc.CloseDrain? || pc.CloseUnlock? || pc.CloseLost?
  }

  /** A thread holds the mutex exactly where it should, and its program point bounds
      the winner's progress. */
  predicate Local(s: State, u: Tid)
    requires u in s.threads
  {
    var pc := s.threads[u];
    && (Holds(pc) <==> s.staleMu == Some(u))
    && (pc.CloseSwap? ==> s.phase == 0 || s.phase == 4)
    && (pc.CloseQueue? ==> s.phase == 1)
    && (pc.CloseDrain? ==> s.phase == 2)
    && (pc.CloseUnlock? ==> s.phase == 3)
    && (pc.CloseLost? || pc.TakeStale? ==> s.phase == 4)
    && (pc.StaleLock? ==> 1 <= s.phase)
    && (pc.Reload? ==> 2 <= s.phase)
  }

  predicate Global(s: State) {
    && s.phase <= 4
    && (s.closed <==> 1 <= s.phase)
    && (s.queueClosed <==> 2 <= s.phase)
    && (1 <= s.phase <= 3 ==> s.staleMu.Some?)
    && (s.staleMu.Some? ==> s.staleMu.value in s.threads)
    && s.pushed == s.delivered + s.queue + s.stale
    && (s.phase <= 2 ==> s.stale == [])
    && (3 <= s.phase ==> s.queue == [])
    && (s.reported ==> s.phase == 4 && s.stale == [])
    && !s.stray
  }

  ghost predicate Inv(s: State) {
    Global(s) && forall u :: u in s.threads ==> Local(s, u)
  }

  /** What the other threads rely on. */
  predicate Move(s: State, s': State, t: Tid)
    requires t in s.threads
  {
    && t in s'.threads && s'.threads == s.threads[t := s'.threads[t]]
    && (s'.staleMu == s.staleMu || (s.staleMu == None && s'.staleMu == Some(t)) || (s.staleMu == Some(t) && s'.staleMu == None))
    && (s'.phase == s.phase || (s.phase < s'.phase && s.staleMu == Some(t)))
  }

  lemma ReaderKept(s: State, s': State, t: Tid)
    requires Global(s) && t in s.threads && Local(s, t) && ReaderStep(s, s', t, s.threads[t])
    ensures Move(s, s', t) && Local(s', t) && Global(s')
  {
  }

  lemma CloserKept(s: State, s': State, t: Tid)
    requires Global(s) && t in s.threads && Local(s, t) && CloserStep(s, s', t, s.threads[t])
    ensures Move(s, s', t) && Local(s', t) && Global(s')
  {
  }

  lemma OtherKept(s: State, s': State, t: Tid)
    requires Global(s) && t in s.threads && Local(s, t) && OtherStep(s, s', t, s.threads[t])
    ensures Move(s, s', t) && Local(s', t) && Global(s')
  {
  }

  lemma OthersKept(s: State, s': State, t: Tid, u: Tid)
    requires t in s.threads && Move(s, s', t)
    requires u in s.threads && u != t && Local(s, u)
    ensures Local(s', u)
  {
  }

  lemma NextKeepsInv(s: State, s': State)
    requires Inv(s) && Next(s, s')
    ensures Inv(s')
  {
    hide ReaderStep, CloserStep, OtherStep;
    if t :| t in s.threads && ThreadStep(s, s', t) {
      var pc := s.threads[t];
      if ReaderStep(s, s', t, pc) {
        ReaderKept(s, s', t);
      } else if CloserStep(s, s', t, pc) {
        CloserKept(s, s', t);
      } else {
        OtherKept(s, s', t);
      }
      forall u | u in s'.threads
        ensures Local(s', u)
      {
        if u != t {
          OthersKept(s, s', t, u);
        }
      }
    }
  }

  lemma {:induction false} RunKeepsInv(run: seq<State>, i: nat)
    requires IsRun(run) && i < |run|
    ensures Inv(run[i])
  {
    hide Next;
    if i > 0 {
      RunKeepsInv(run, i - 1);
      assert Next(run[i - 1], run[(i - 1) + 1]);
      NextKeepsInv(run[i - 1], run[i]);
    }
  }

  /** Packets pushed successfully are those delivered and then those still queued or
      stale, in order, at every step; StreamClosed is reported only when every one has
      been delivered; and the queue's own error never reaches a reader. */
  lemma ReadsConserved(run: seq<State>, i: nat)
    requires IsRun(run) && i < |run|
    ensures run[i].pushed == run[i].delivered + run[i].queue + run[i].stale
    ensures run[i].queue == [] || run[i].stale == []
    ensures run[i].reported ==> run[i].delivered == run[i].pushed
    ensures !run[i].stray
  {
    RunKeepsInv(run, i);
  }

  /** After a reader was told the stream is closed, nothing is ever pushed or delivered. */
  lemma {:induction false} ClosedIsFinal(run: seq<State>, i: nat, j: nat)
    requires IsRun(run) && i <= j < |run| && run[i].reported
    ensures run[j].reported && run[j].pushed == run[i].pushed && run[j].delivered == run[i].delivered
    decreases j - i
  {
    hide Next, Init;
    if i < j {
      ClosedIsFinal(run, i, j - 1);
      RunKeepsInv(run, j - 1);
      assert Next(run[j - 1], run[(j - 1) + 1]);
      ReportedNext(run[j - 1], run[j]);
    }
  }

  lemma ReportedNext(s: State, s': State)
    requires Inv(s) && Next(s, s') && s.reported
    ensures s'.reported && s'.pushed == s.pushed && s'.delivered == s.delivered
  {
    hide ReaderStep, CloserStep, OtherStep, Local;
    if t :| t in s.threads && ThreadStep(s, s', t) {
      ReportedStep(s, s', t);
    }
  }

  lemma ReportedStep(s: State, s': State, t: Tid)
    requires Global(s) && s.reported && t in s.threads && Local(s, t) && ThreadStep(s, s', t)
    ensures s'.reported && s'.pushed == s.pushed && s'.delivered == s.delivered
  {
  }

  predicate InRead(pc: Pc) {
    pc.Load? || pc.StaleLock? || pc.TakeStale? || pc.Pop? || pc.Reload?
  }

  lemma ReadEnds(s: State, s': State, t: Tid, pc: Pc)
    requires ReaderStep(s, s', t, pc) && t in s'.threads && !InRead(s'.threads[t]) && !s'.stray
    ensures s'.threads[t] == Idle && s'.pushed == s.pushed
    ensures || (s'.delivered == s.delivered && s'.reported)
            || (|s'.delivered| == |s.delivered| + 1 && s.delivered <= s'.delivered)
  {
  }

  /** A call of ReadPacket ends in one of two ways: with the packet that is next in order,
      or with the news that the stream is closed. */
  lemma ReadOutcome(run: seq<State>, i: nat, t: Tid)
    requires IsRun(run) && i + 1 < |run| && t in run[i].threads && ReaderStep(run[i], run[i + 1], t, run[i].threads[t])
    requires t in run[i + 1].threads && !InRead(run[i + 1].threads[t])
    ensures run[i + 1].threads[t] == Idle
    ensures var d, d' := run[i].delivered, run[i + 1].delivered;
      || (|d'| == |d| + 1 && d <= d' <= run[i].pushed)
      || (d' == d && run[i + 1].reported)
  {
    ReadsConserved(run, i);
    ReadsConserved(run, i + 1);
    hide IsRun, ReaderStep;
    ReadEnds(run[i], run[i + 1], t, run[i].threads[t]);
  }

  // Every data frame is pushed

  function Offering(threads: map<Tid, Pc>): seq<Packet> {
    if READLOOP in threads && threads[READLOOP].Pushing? then [threads[READLOOP].packet] else []
  }

  /** The packets of the stream's data frames are pushed, in order, until the queue is
      closed, and refused from then on. */
  predicate Handed(s: State) {
    && s.offered == s.pushed + s.refused + Offering(s.threads)
    && (s.refused != [] ==> s.queueClosed)
    && (forall t :: t in s.threads && s.threads[t].Pushing? ==> t == READLOOP)
  }

  /** A step of a thread that is not pushing and does not begin to. */
  predicate Elsewhere(s: State, s': State, t: Tid) {
    && s'.offered == s.offered && s'.pushed == s.pushed && s'.refused == s.refused && (s.queueClosed ==> s'.queueClosed)
    && t in s.threads && !s.threads[t].Pushing?
    && t in s'.threads && s'.threads == s.threads[t := s'.threads[t]] && !s'.threads[t].Pushing?
  }

  lemma TakerElsewhere(s: State, s': State, t: Tid)
    requires t in s.threads && ReaderStep(s, s', t, s.threads[t])
    requires s.threads[t].TakeStale? || s.threads[t].Pop?
    ensures Elsewhere(s, s', t)
  {
  }

  lemma LoaderElsewhere(s: State, s': State, t: Tid)
    requires t in s.threads && ReaderStep(s, s', t, s.threads[t])
    requires !s.threads[t].TakeStale? && !s.threads[t].Pop?
    ensures Elsewhere(s, s', t)
  {
  }

  lemma ReaderElsewhere(s: State, s': State, t: Tid)
    requires t in s.threads && ReaderStep(s, s', t, s.threads[t])
    ensures Elsewhere(s, s', t)
  {
    hide ReaderStep, Elsewhere;
    if s.threads[t].TakeStale? || s.threads[t].Pop? {
      TakerElsewhere(s, s', t);
    } else {
      LoaderElsewhere(s, s', t);
    }
  }

  lemma DrainElsewhere(s: State, s': State, t: Tid)
    requires t in s.threads && CloserStep(s, s', t, s.threads[t])
    requires s.threads[t].CloseQueue? || s.threads[t].CloseDrain?
    ensures Elsewhere(s, s', t)
  {
  }

  lemma LockElsewhere(s: State, s': State, t: Tid)
    requires t in s.threads && CloserStep(s, s', t, s.threads[t])
    requires !s.threads[t].CloseQueue? && !s.threads[t].CloseDrain?
    ensures Elsewhere(s, s', t)
  {
  }

  lemma CloserElsewhere(s: State, s': State, t: Tid)
    requires t in s.threads && CloserStep(s, s', t, s.threads[t])
    ensures Elsewhere(s, s', t)
  {
    hide CloserStep, Elsewhere;
    if s.threads[t].CloseQueue? || s.threads[t].CloseDrain? {
      DrainElsewhere(s, s', t);
    } else {
      LockElsewhere(s, s', t);
    }
  }

  lemma ElsewhereHands(s: State, s': State, t: Tid)
    requires Handed(s) && Elsewhere(s, s', t)
    ensures Handed(s')
  {
    assert Offering(s'.threads) == Offering(s.threads);
  }

  lemma PushHands(s: State, s': State, t: Tid)
    requires Handed(s) && t in s.threads && s.threads[t].Pushing? && OtherStep(s, s', t, s.threads[t])
    ensures Handed(s')
  {
    var p := s.threads[t].packet;
    assert Offering(s.threads) == [p];
    assert s.pushed + [] + [p] == (s.pushed + [p]) + [] + [];
    assert s.pushed + s.refused + [p] == s.pushed + (s.refused + [p]) + [];
  }

  lemma IdleHands(s: State, s': State, t: Tid)
    requires Handed(s) && t in s.threads && s.threads[t].Idle? && OtherStep(s, s', t, s.threads[t])
    ensures Handed(s')
  {
    if s'.offered == s.offered {
      assert Offering(s'.threads) == Offering(s.threads);
    } else {
      assert Offering(s.threads) == [];
      assert s.pushed + s.refused + [] == s.pushed + s.refused;
    }
  }

  lemma IdleIs(s: State, s': State, t: Tid)
    requires t in s.threads && OtherStep(s, s', t, s.threads[t]) && !s.threads[t].Pushing?
    ensures s.threads[t].Idle?
  {
  }

  lemma HandedNext(s: State, s': State)
    requires Handed(s) && Next(s, s')
    ensures Handed(s')
  {
    hide ReaderStep, CloserStep, OtherStep;
    if t :| t in s.threads && ThreadStep(s, s', t) {
      if ReaderStep(s, s', t, s.threads[t]) {
        ReaderElsewhere(s, s', t);
        ElsewhereHands(s, s', t);
      } else if CloserStep(s, s', t, s.threads[t]) {
        CloserElsewhere(s, s', t);
        ElsewhereHands(s, s', t);
      } else if s.threads[t].Pushing? {
        PushHands(s, s', t);
      } else {
        IdleIs(s, s', t);
        IdleHands(s, s', t);
      }
    }
  }

  lemma {:induction false} AllHanded(run: seq<State>, i: nat)
    requires IsRun(run) && i < |run|
    ensures Handed(run[i])
  {
    hide Next;
    if i > 0 {
      AllHanded(run, i - 1);
      assert Next(run[i - 1], run[(i - 1) + 1]);
      HandedNext(run[i - 1], run[i]);
    }
  }

  /** Every data frame of the stream reaches its readers, in order: what the read loop has
      offered is what was delivered, then what is queued or stale, then what a closed
      queue has refused, and what is being pushed. Nothing is refused before the close. */
  lemma OfferedIsDelivered(run: seq<State>, i: nat)
    requires IsRun(run) && i < |run|
    ensures run[i].offered ==
      run[i].delivered + run[i].queue + run[i].stale + run[i].refused + Offering(run[i].threads)
    ensures run[i].refused != [] ==> run[i].closed
  {
    AllHanded(run, i);
    RunKeepsInv(run, i);
  }
}
