/** The closing and limiting discipline of the dispatchers: exactly one completed
    onClosed call per connection, and limiter tokens conserved across connections. */
module DispatchControl {
  import opened Options
  import opened Dispatch

  /** Between wg.Add and wg.Done. */
  predicate IsCounted(at: HandlerAt) {
    !at.Granted? && !at.Release?
  }

  /** The handlers of connection c that its wait group counts. */
  ghost function Counted(handlers: map<Hid, Handler>, c: Cid): set<Hid> {
    set h | h in handlers && handlers[h].conn == c && IsCounted(handlers[h].at)
  }

  predicate Started(at: DispatcherAt) {
    !at.First? && !at.FirstClose? && !at.FirstNotify?
  }

  /** A handler closes the connection if and only if its write failed or it was asked to:
      Close first, then the flag and whoever wins it onClosed, then cancel. */
  predicate Closes(r: Handler, d: Conn) {
    && (r.at.Closing? || r.at.Swap? || r.at.Notify? || r.at.Cancel? ==> r.asked || r.failed)
    && (r.at.Swap? || r.at.Notify? || r.at.Cancel? ==> d.connClosed)
    && (r.at.Cancel? ==> d.flag)
    && ((r.at.Done? || r.at.Release?) && (r.asked || r.failed) ==> d.connClosed && d.flag && d.cancelled)
  }

  predicate HandlerOk(k: Control, h: Hid)
    requires h in k.handlers
  {
    var r := k.handlers[h];
    r.conn in k.conns &&
    var d := k.conns[r.conn];
    && Started(d.at) && Closes(r, d)
    && (r.at.Granted? ==> d.at == Launching(h))
    && (r.at.Notify? ==> d.flag && d.winner == Some(Goroutine(h)) && d.completed == 0)
    && (d.at.Returned? ==> r.at.Release?)
  }

  /** Whoever won the closed flag is calling onClosed, or has completed the call. */
  predicate NotifierOk(k: Control, c: Cid, d: Conn) {
    && d.completed <= 1
    && (d.flag && d.completed == 0 ==>
        match d.winner
        case None => false
        case Some(Dispatcher) => d.at.Notifying?
        case Some(Goroutine(h)) => h in k.handlers && k.handlers[h].conn == c && k.handlers[h].at.Notify?)
    && (!d.flag ==> d.completed == (if d.at.Returned? then 1 else 0))
  }

  /** Nobody calls onClosed before the connection is closed, and a dispatcher that waits for
      its handlers has cancelled them. */
  predicate Ends(d: Conn) {
    && (d.flag || d.completed > 0 || d.at.FirstNotify? || d.at.Swapping? || d.at.Returned? ==> d.connClosed)
    && (d.at.Shutting? && d.at.viaCancel ==> d.cancelled)
    && (d.at.Swapping? && d.at.viaCancel ==> d.cancelled)
    && (d.at.Notifying? && d.at.viaCancel ==> d.cancelled)
    && (d.at.Waiting? ==> d.cancelled)
    && (d.at.Returned? && d.flag ==> d.cancelled)
    && (Leaving(d.at) ==> d.readFailed || d.quit) && (d.quit ==> d.cancelled)
  }

  /** The dispatcher is on its way out. */
  predicate Leaving(at: DispatcherAt) {
    !at.First? && !at.Holding? && !at.Launching? && !at.Reading?
  }

  predicate ConnOk(k: Control, c: Cid)
    requires c in k.conns
  {
    var d := k.conns[c];
    && NotifierOk(k, c, d)
    && Ends(d)
    && (!Started(d.at) ==> !d.flag)
    && (d.at.FirstClose? || d.at.FirstNotify? ==> d.winner == Some(Dispatcher))
    && (d.at.Notifying? ==> d.flag && d.winner == Some(Dispatcher) && d.completed == 0)
    && (d.at.Cancelling? || d.at.Waiting? ==> d.flag)
    && (d.at.Returned? ==> d.completed == 1)
    && (d.at.Launching? ==> var h := d.at.handler;
        h in k.handlers && k.handlers[h].conn == c && k.handlers[h].at.Granted?)
  }

  ghost predicate WaitOk(k: Control, c: Cid)
    requires c in k.conns
  {
    k.conns[c].wg == |Counted(k.handlers, c)|
  }

  /** In the limited mode every handler goroutine holds one token, from before it is
      started until after it is done. */
  predicate TokensOk(k: Control, concurrency: nat) {
    concurrency != 1 && (if concurrency == 0 then k.limiter == 0 else k.limiter == |k.handlers| <= concurrency)
  }

  ghost predicate Inv(s: State) {
    && !s.fault
    && TokensOk(s.ctl, s.concurrency)
    && (forall c :: c in s.ctl.conns ==> ConnOk(s.ctl, c) && WaitOk(s.ctl, c))
    && (forall h :: h in s.ctl.handlers ==> HandlerOk(s.ctl, h))
  }

  // How a step concerning one connection and at most one handler looks to the others

  ghost predicate Touch(k: Control, k': Control, c: Cid, hs: set<Hid>) {
    && c in k.conns && c in k'.conns && k'.conns == k.conns[c := k'.conns[c]]
    && (forall g :: g !in hs ==> (g in k.handlers <==> g in k'.handlers))
    && (forall g :: g !in hs && g in k.handlers && g in k'.handlers ==> k'.handlers[g] == k.handlers[g])
    && (forall g :: g in hs && g in k.handlers ==> k.handlers[g].conn == c)
    && (forall g :: g in hs && g in k'.handlers ==> k'.handlers[g].conn == c)
  }

  predicate Compatible(d: Conn, d': Conn, hs: set<Hid>) {
    && (Started(d.at) ==> Started(d'.at))
    && (d.at.Launching? ==> d'.at == d.at || d.at.handler in hs)
    && (d.flag ==> d'.flag && d'.winner == d.winner)
    && (d.connClosed ==> d'.connClosed) && (d.cancelled ==> d'.cancelled)
    && (d'.completed == d.completed || d.winner == Some(Dispatcher) || (d.winner.Some? && d.winner.value.handler in hs))
  }

  lemma OtherConn(k: Control, k': Control, c: Cid, hs: set<Hid>, b: Cid)
    requires Touch(k, k', c, hs) && b != c && b in k.conns && ConnOk(k, b) && WaitOk(k, b)
    ensures b in k'.conns && ConnOk(k', b) && WaitOk(k', b)
  {
    assert Counted(k'.handlers, b) == Counted(k.handlers, b);
  }

  lemma OtherHandler(k: Control, k': Control, c: Cid, hs: set<Hid>, g: Hid)
    requires Touch(k, k', c, hs) && Compatible(k.conns[c], k'.conns[c], hs)
    requires g !in hs && g in k.handlers && HandlerOk(k, g)
    requires ReturnsAlone(k, k', c)
    ensures g in k'.handlers && HandlerOk(k', g)
  {
  }

  /** Nobody but the touched handler is left when a dispatcher returns. */
  ghost predicate ReturnsAlone(k: Control, k': Control, c: Cid)
    requires c in k.conns && c in k'.conns
  {
    k'.conns[c].at.Returned? && !k.conns[c].at.Returned? ==>
      forall g :: g in k.handlers && k.handlers[g].conn == c ==> k.handlers[g].at.Release?
  }

  // Each kind of step

  ghost predicate Kept(s: State, s': State, c: Cid, hs: set<Hid>) {
    && Touch(s.ctl, s'.ctl, c, hs)
    && Compatible(s.ctl.conns[c], s'.ctl.conns[c], hs)
    && ReturnsAlone(s.ctl, s'.ctl, c)
    && ConnOk(s'.ctl, c) && WaitOk(s'.ctl, c)
    && (forall h :: h in hs && h in s'.ctl.handlers ==> HandlerOk(s'.ctl, h))
    && TokensOk(s'.ctl, s'.concurrency) && !s'.fault && s'.concurrency == s.concurrency
  }

  /** A counted handler that moves between counted points. */
  lemma SameCount(handlers: map<Hid, Handler>, h: Hid, r: Handler, c: Cid)
    requires h in handlers && r.conn == handlers[h].conn && (IsCounted(r.at) <==> IsCounted(handlers[h].at))
    ensures Counted(handlers[h := r], c) == Counted(handlers, c) && |handlers[h := r]| == |handlers|
  {
    assert handlers[h := r].Keys == handlers.Keys;
    assert |handlers[h := r]| == |handlers[h := r].Keys| == |handlers.Keys|;
  }

  lemma MoreCounted(handlers: map<Hid, Handler>, h: Hid, r: Handler)
    requires h !in handlers || (handlers[h].conn == r.conn && !IsCounted(handlers[h].at))
    requires IsCounted(r.at)
    ensures |Counted(handlers[h := r], r.conn)| == |Counted(handlers, r.conn)| + 1
  {
    assert Counted(handlers[h := r], r.conn) == Counted(handlers, r.conn) + {h};
  }

  lemma FewerCounted(handlers: map<Hid, Handler>, handlers': map<Hid, Handler>, h: Hid)
    requires h in handlers && IsCounted(handlers[h].at)
    requires handlers' == handlers - {h} || (handlers' == handlers[h := handlers[h].(at := Release)])
    ensures var c := handlers[h].conn;
      h in Counted(handlers, c) && |Counted(handlers', c)| == |Counted(handlers, c)| - 1
  {
    var c := handlers[h].conn;
    assert Counted(handlers', c) == Counted(handlers, c) - {h};
  }

  lemma SizeAdd(handlers: map<Hid, Handler>, h: Hid, r: Handler)
    requires h !in handlers
    ensures |handlers[h := r]| == |handlers| + 1
  {
    assert handlers[h := r].Keys == handlers.Keys + {h};
    assert |handlers[h := r]| == |handlers[h := r].Keys|;
  }

  lemma SizeRemove(handlers: map<Hid, Handler>, h: Hid)
    requires h in handlers
    ensures |handlers - {h}| == |handlers| - 1
  {
    assert (handlers - {h}).Keys == handlers.Keys - {h};
    assert |handlers - {h}| == |(handlers - {h}).Keys|;
  }

  ghost predicate ReadyHandler(s: State, h: Hid) {
    && h in s.ctl.handlers && HandlerOk(s.ctl, h)
    && ConnOk(s.ctl, s.ctl.handlers[h].conn) && WaitOk(s.ctl, s.ctl.handlers[h].conn)
    && TokensOk(s.ctl, s.concurrency) && !s.fault
  }

  ghost predicate ReadyConn(s: State, c: Cid) {
    && c in s.ctl.conns && ConnOk(s.ctl, c) && WaitOk(s.ctl, c)
    && TokensOk(s.ctl, s.concurrency) && !s.fault
  }

  /** Points at which a handler has no special role. */
  predicate Plain(at: HandlerAt) {
    IsCounted(at) && !at.Notify?
  }

  lemma PlainKept(s: State, s': State, h: Hid, r': Handler)
    requires ReadyHandler(s, h) && Plain(s.ctl.handlers[h].at) && Plain(r'.at) && r'.conn == s.ctl.handlers[h].conn
    requires Closes(r', s.ctl.conns[s.ctl.handlers[h].conn])
    requires s'.ctl == SetHandler(s.ctl, h, r') && s'.concurrency == s.concurrency && s'.fault == s.fault
    ensures Kept(s, s', s.ctl.handlers[h].conn, {h})
  {
    hide Counted;
    SameCount(s.ctl.handlers, h, r', s.ctl.handlers[h].conn);
  }

  lemma RunKept(s: State, s': State, h: Hid, x: Pid, fits: bool, asked: bool)
    requires ReadyHandler(s, h) && RunStep(s, s', h, x, fits, asked)
    ensures Kept(s, s', s.ctl.handlers[h].conn, {h})
  {
    assert s.ctl.handlers[h].conn in s.ctl.conns;
    hide HandlerOk, ConnOk, WaitOk, TokensOk, Kept, Get;
    assert s.ctl.handlers[h].at.Ready? || s.ctl.handlers[h].at.Running?;
    PlainKept(s, s', h, s'.ctl.handlers[h]);
  }

  lemma TestKept(s: State, s': State, h: Hid)
    requires ReadyHandler(s, h) && TestStep(s, s', h)
    ensures Kept(s, s', s.ctl.handlers[h].conn, {h})
  {
    assert s.ctl.handlers[h].conn in s.ctl.conns;
    hide HandlerOk, ConnOk, WaitOk, TokensOk, Kept, Dispatch.Move;
    PlainKept(s, s', h, s'.ctl.handlers[h]);
  }

  lemma PutShape(s: State, s': State, h: Hid, d: Conn)
    requires h in s.ctl.handlers && PutStep(s, s', h)
    ensures h in s'.ctl.handlers && s'.ctl == SetHandler(s.ctl, h, s'.ctl.handlers[h])
    ensures Plain(s.ctl.handlers[h].at) && Plain(s'.ctl.handlers[h].at) && s'.ctl.handlers[h].conn == s.ctl.handlers[h].conn
    ensures Closes(s'.ctl.handlers[h], d) && s'.concurrency == s.concurrency && s'.fault == s.fault
  {
    hide Put;
  }

  lemma PutKept(s: State, s': State, h: Hid)
    requires ReadyHandler(s, h) && PutStep(s, s', h)
    ensures Kept(s, s', s.ctl.handlers[h].conn, {h})
  {
    PutShape(s, s', h, s.ctl.conns[s.ctl.handlers[h].conn]);
    hide HandlerOk, ConnOk, WaitOk, TokensOk, Kept, PutStep, Closes;
    PlainKept(s, s', h, s'.ctl.handlers[h]);
  }

  /** The handler moves on, and the connection with it. */
  lemma BothMove(s: State, s': State, h: Hid, d': Conn)
    requires ReadyHandler(s, h) && IsCounted(s.ctl.handlers[h].at)
    requires h in s'.ctl.handlers && IsCounted(s'.ctl.handlers[h].at) && s'.ctl.handlers[h].conn == s.ctl.handlers[h].conn
    requires s'.ctl == SetConn(SetHandler(s.ctl, h, s'.ctl.handlers[h]), s.ctl.handlers[h].conn, d')
    requires d'.wg == s.ctl.conns[s.ctl.handlers[h].conn].wg && !d'.at.Returned? && d'.at == s.ctl.conns[s.ctl.handlers[h].conn].at
    requires Compatible(s.ctl.conns[s.ctl.handlers[h].conn], d', {h})
    requires ConnOk(s'.ctl, s.ctl.handlers[h].conn) && HandlerOk(s'.ctl, h)
    requires s'.concurrency == s.concurrency && s'.fault == s.fault
    ensures Kept(s, s', s.ctl.handlers[h].conn, {h})
  {
    SameCount(s.ctl.handlers, h, s'.ctl.handlers[h], s.ctl.handlers[h].conn);
    hide Counted, ConnOk, HandlerOk, Compatible;
  }

  lemma CloseKept(s: State, s': State, h: Hid)
    requires ReadyHandler(s, h) && HandlerCloseStep(s, s', h) && s.ctl.handlers[h].at.Closing?
    ensures Kept(s, s', s.ctl.handlers[h].conn, {h})
  {
    hide Counted, Kept, WaitOk, TokensOk;
    BothMove(s, s', h, s'.ctl.conns[s.ctl.handlers[h].conn]);
  }

  lemma SwapKept(s: State, s': State, h: Hid)
    requires ReadyHandler(s, h) && HandlerCloseStep(s, s', h) && s.ctl.handlers[h].at.Swap?
    requires !s.ctl.conns[s.ctl.handlers[h].conn].flag
    ensures Kept(s, s', s.ctl.handlers[h].conn, {h})
  {
    hide Counted, Kept, WaitOk, TokensOk;
    BothMove(s, s', h, s'.ctl.conns[s.ctl.handlers[h].conn]);
  }

  lemma NotifyKept(s: State, s': State, h: Hid)
    requires ReadyHandler(s, h) && HandlerCloseStep(s, s', h) && s.ctl.handlers[h].at.Notify?
    ensures Kept(s, s', s.ctl.handlers[h].conn, {h})
  {
    hide Counted, Kept, WaitOk, TokensOk;
    BothMove(s, s', h, s'.ctl.conns[s.ctl.handlers[h].conn]);
  }

  lemma CancelledKept(s: State, s': State, h: Hid)
    requires ReadyHandler(s, h) && HandlerCloseStep(s, s', h) && s.ctl.handlers[h].at.Cancel?
    ensures Kept(s, s', s.ctl.handlers[h].conn, {h})
  {
    hide Counted, Kept, WaitOk, TokensOk;
    BothMove(s, s', h, s'.ctl.conns[s.ctl.handlers[h].conn]);
  }

  lemma LateKept(s: State, s': State, h: Hid)
    requires ReadyHandler(s, h) && HandlerCloseStep(s, s', h) && s.ctl.handlers[h].at.Swap?
    requires s.ctl.conns[s.ctl.handlers[h].conn].flag
    ensures Kept(s, s', s.ctl.handlers[h].conn, {h})
  {
    hide Counted, Kept, ConnOk, WaitOk, TokensOk;
    PlainKept(s, s', h, s'.ctl.handlers[h]);
  }

  lemma HandlerCloseKept(s: State, s': State, h: Hid)
    requires ReadyHandler(s, h) && HandlerCloseStep(s, s', h)
    ensures Kept(s, s', s.ctl.handlers[h].conn, {h})
  {
    hide Kept, ConnOk, WaitOk, TokensOk;
    var r := s.ctl.handlers[h];
    if r.at.Closing? {
      CloseKept(s, s', h);
    } else if r.at.Swap? {
      if s.ctl.conns[r.conn].flag {
        LateKept(s, s', h);
      } else {
        SwapKept(s, s', h);
      }
    } else if r.at.Notify? {
      NotifyKept(s, s', h);
    } else {
      CancelledKept(s, s', h);
    }
  }

  lemma HandlerEndKept(s: State, s': State, h: Hid)
    requires ReadyHandler(s, h) && HandlerEndStep(s, s', h)
    ensures Kept(s, s', s.ctl.handlers[h].conn, {h})
  {
    hide Counted;
    var hs := s.ctl.handlers;
    if hs[h].at.Done? {
      FewerCounted(hs, s'.ctl.handlers, h);
      if s.concurrency > 1 {
        assert s'.ctl.handlers.Keys == hs.Keys;
        assert |s'.ctl.handlers| == |s'.ctl.handlers.Keys|;
      }
    } else {
      SizeRemove(hs, h);
      ReleasedNotCounted(hs, h);
    }
  }

  lemma ReleasedNotCounted(handlers: map<Hid, Handler>, h: Hid)
    requires h in handlers && !IsCounted(handlers[h].at)
    ensures Counted(handlers - {h}, handlers[h].conn) == Counted(handlers, handlers[h].conn)
  {
  }

  lemma ReadKept(s: State, s': State, c: Cid)
    requires ReadyConn(s, c) && ReadStep(s, s', c)
    ensures Kept(s, s', c, {})
  {
    hide Counted;
  }

  lemma StartKept(s: State, s': State, c: Cid, h: Hid, r: Handler)
    requires ReadyConn(s, c) && s.concurrency == 0 && s.ctl.conns[c].at.Holding?
    requires h !in s.ctl.handlers && r.conn == c && r.at == Ready
    requires s'.ctl == SetHandler(SetConn(s.ctl, c, s.ctl.conns[c].(at := Reading, wg := s.ctl.conns[c].wg + 1)), h, r)
    requires s'.concurrency == s.concurrency && s'.fault == s.fault
    ensures Kept(s, s', c, {h})
  {
    hide Counted;
    MoreCounted(s.ctl.handlers, h, r);
  }

  lemma GrantKept(s: State, s': State, c: Cid, h: Hid, r: Handler)
    requires ReadyConn(s, c) && s.concurrency > 1 && s.ctl.limiter < s.concurrency && s.ctl.conns[c].at.Holding?
    requires h !in s.ctl.handlers && r.conn == c && r.at == Granted
    requires s'.ctl == SetHandler(SetConn(s.ctl, c, s.ctl.conns[c].(at := Launching(h))), h, r).(limiter := s.ctl.limiter + 1)
    requires s'.concurrency == s.concurrency && s'.fault == s.fault
    ensures Kept(s, s', c, {h})
  {
    hide Counted;
    SizeAdd(s.ctl.handlers, h, r);
    GrantedNotCounted(s.ctl.handlers, h, r);
  }

  lemma LaunchingKept(s: State, s': State, c: Cid, g: Hid)
    requires ReadyConn(s, c) && s.ctl.conns[c].at == Launching(g) && g in s.ctl.handlers
    requires s' == s.(ctl := SetConn(At(s.ctl, g, Ready), c, s.ctl.conns[c].(at := Reading, wg := s.ctl.conns[c].wg + 1)))
    ensures Kept(s, s', c, {g})
  {
    hide Counted;
    var hs := s.ctl.handlers;
    MoreCounted(hs, g, hs[g].(at := Ready));
    assert s'.ctl.handlers.Keys == hs.Keys;
    assert |s'.ctl.handlers| == |s'.ctl.handlers.Keys|;
  }

  lemma DropKept(s: State, s': State, c: Cid, h: Hid)
    requires ReadyConn(s, c) && s.ctl.conns[c].at.Holding? && s.ctl.conns[c].cancelled
    requires s'.ctl == SetConn(s.ctl, c, s.ctl.conns[c].(at := Shutting(true), quit := true)) && s'.concurrency == s.concurrency && s'.fault == s.fault
    ensures Kept(s, s', c, {})
  {
    hide Counted;
  }

  /** The handlers a launching step concerns. */
  ghost function Launched(s: State, s': State, c: Cid, h: Hid): set<Hid>
    requires c in s.ctl.conns
  {
    var at := s.ctl.conns[c].at;
    if at.Launching? then {at.handler} else if s'.ctl.handlers == s.ctl.handlers then {} else {h}
  }

  lemma LaunchKept(s: State, s': State, c: Cid, h: Hid)
    requires ReadyConn(s, c) && LaunchStep(s, s', c, h)
    ensures Kept(s, s', c, Launched(s, s', c, h))
  {
    hide ConnOk, WaitOk, TokensOk, Kept, Dispatch.Move;
    match s.ctl.conns[c].at
    case Launching(g) => LaunchingKept(s, s', c, g);
    case Holding(p) =>
      if s'.ctl.handlers == s.ctl.handlers {
        assert h in s'.ctl.handlers ==> h in s.ctl.handlers;
        DropKept(s, s', c, h);
      } else if s.concurrency == 0 {
        StartKept(s, s', c, h, s'.ctl.handlers[h]);
      } else {
        GrantKept(s, s', c, h, s'.ctl.handlers[h]);
      }
    case _ =>
  }

  lemma GrantedNotCounted(handlers: map<Hid, Handler>, h: Hid, r: Handler)
    requires h !in handlers && !IsCounted(r.at)
    ensures Counted(handlers[h := r], r.conn) == Counted(handlers, r.conn)
  {
  }

  lemma ConnKept(s: State, s': State, c: Cid, d': Conn)
    requires ReadyConn(s, c) && s' == s.(ctl := SetConn(s.ctl, c, d')) && d'.wg == s.ctl.conns[c].wg
    requires ConnOk(s'.ctl, c) && Compatible(s.ctl.conns[c], d', {}) && ReturnsAlone(s.ctl, s'.ctl, c)
    ensures Kept(s, s', c, {})
  {
    hide Counted, ConnOk, Compatible, ReturnsAlone;
  }

  /** The steps of a dispatcher on its way out that do not yet return. */
  lemma LeavingKept(s: State, s': State, c: Cid)
    requires ReadyConn(s, c) && FinishStep(s, s', c)
    requires !s.ctl.conns[c].at.Waiting? && !s.ctl.conns[c].at.FirstNotify?
    ensures Kept(s, s', c, {})
  {
    hide WaitOk, TokensOk, Kept;
    ConnKept(s, s', c, s'.ctl.conns[c]);
  }

  lemma ReturnKept(s: State, s': State, c: Cid)
    requires ReadyConn(s, c) && FinishStep(s, s', c)
    requires s.ctl.conns[c].at.Waiting? || s.ctl.conns[c].at.FirstNotify?
    requires forall g :: g in s.ctl.handlers ==> HandlerOk(s.ctl, g)
    ensures Kept(s, s', c, {})
  {
    hide WaitOk, TokensOk, Kept, HandlerOk;
    AllReleased(s.ctl, c);
    var d := s.ctl.conns[c];
    if d.winner.Some? && d.winner.value.Goroutine? && d.winner.value.handler in s.ctl.handlers {
      assert s.ctl.handlers[d.winner.value.handler].conn == c ==> s.ctl.handlers[d.winner.value.handler].at.Release?;
    }
    ConnKept(s, s', c, s'.ctl.conns[c]);
  }

  /** A wait group at zero leaves only handlers that still hold their token. */
  lemma AllReleased(k: Control, c: Cid)
    requires c in k.conns && (k.conns[c].at.Waiting? || k.conns[c].at.FirstNotify?) && WaitOk(k, c)
    requires forall g :: g in k.handlers ==> HandlerOk(k, g)
    ensures k.conns[c].wg == 0 || k.conns[c].at.FirstNotify? ==>
      forall g :: g in k.handlers && k.handlers[g].conn == c ==> k.handlers[g].at.Release?
  {
    if k.conns[c].wg == 0 || k.conns[c].at.FirstNotify? {
      forall g | g in k.handlers && k.handlers[g].conn == c
        ensures k.handlers[g].at.Release?
      {
        assert HandlerOk(k, g);
        assert g !in Counted(k.handlers, c);
      }
    }
  }

  // The invariant is inductive

  lemma KeptInv(s: State, s': State, c: Cid, hs: set<Hid>)
    requires Inv(s) && Kept(s, s', c, hs)
    ensures Inv(s')
  {
    hide ConnOk, WaitOk, HandlerOk, Compatible, TokensOk;
    forall b | b in s'.ctl.conns
      ensures ConnOk(s'.ctl, b) && WaitOk(s'.ctl, b)
    {
      if b != c {
        OtherConn(s.ctl, s'.ctl, c, hs, b);
      }
    }
    forall g | g in s'.ctl.handlers
      ensures HandlerOk(s'.ctl, g)
    {
      if g !in hs {
        OtherHandler(s.ctl, s'.ctl, c, hs, g);
      }
    }
  }

  lemma AcceptKeepsInv(s: State, s': State, c: Cid)
    requires Inv(s) && AcceptStep(s, s', c)
    ensures Inv(s')
  {
    forall b | b in s'.ctl.conns
      ensures ConnOk(s'.ctl, b) && WaitOk(s'.ctl, b)
    {
      assert b == c || ConnOk(s.ctl, b);
      if b == c {
        assert Counted(s.ctl.handlers, c) == {} by {
          forall g | g in s.ctl.handlers
            ensures s.ctl.handlers[g].conn != c
          {
            assert HandlerOk(s.ctl, g);
          }
        }
      } else {
        assert WaitOk(s.ctl, b);
      }
    }
    forall g | g in s'.ctl.handlers
      ensures HandlerOk(s'.ctl, g)
    {
      assert HandlerOk(s.ctl, g);
    }
  }

  lemma CancelKept(s: State, s': State, c: Cid)
    requires ReadyConn(s, c) && CancelStep(s, s', c)
    ensures Kept(s, s', c, {})
  {
    hide WaitOk, TokensOk, Kept;
    ConnKept(s, s', c, s'.ctl.conns[c]);
  }

  lemma HandlerKeepsInv(s: State, s': State, h: Hid)
    requires Inv(s) && h in s.ctl.handlers && HandlerStep(s, s', h)
    ensures Inv(s')
  {
    hide RunStep, TestStep, PutStep, HandlerCloseStep, HandlerEndStep, Kept, ConnOk, WaitOk, TokensOk;
    assert HandlerOk(s.ctl, h);
    assert ReadyHandler(s, h);
    var c := s.ctl.handlers[h].conn;
    if x, fits, asked :| RunStep(s, s', h, x, fits, asked) {
      RunKept(s, s', h, x, fits, asked);
    } else if TestStep(s, s', h) {
      TestKept(s, s', h);
    } else if PutStep(s, s', h) {
      PutKept(s, s', h);
    } else if HandlerCloseStep(s, s', h) {
      HandlerCloseKept(s, s', h);
    } else {
      HandlerEndKept(s, s', h);
    }
    KeptInv(s, s', c, {h});
  }

  lemma DispatcherKeepsInv(s: State, s': State, c: Cid)
    requires Inv(s) && c in s.ctl.conns && DispatcherStep(s, s', c)
    ensures Inv(s')
  {
    hide ReadStep, LaunchStep, FinishStep, Kept, ConnOk, WaitOk, TokensOk, HandlerOk;
    assert ReadyConn(s, c);
    if ReadStep(s, s', c) {
      ReadKept(s, s', c);
      KeptInv(s, s', c, {});
    } else if h :| LaunchStep(s, s', c, h) {
      LaunchKept(s, s', c, h);
      KeptInv(s, s', c, Launched(s, s', c, h));
    } else {
      if s.ctl.conns[c].at.Waiting? || s.ctl.conns[c].at.FirstNotify? {
        ReturnKept(s, s', c);
      } else {
        LeavingKept(s, s', c);
      }
      KeptInv(s, s', c, {});
    }
  }

  lemma NextKeepsInv(s: State, s': State)
    requires Inv(s) && Next(s, s')
    ensures Inv(s')
  {
    hide HandlerStep, DispatcherStep, AcceptStep, Kept, ConnOk, WaitOk, TokensOk, HandlerOk;
    if c :| AcceptStep(s, s', c) {
      AcceptKeepsInv(s, s', c);
    } else if c, x, f :| FetchStep(s, s', c, x, f) {
      assert s'.ctl == s.ctl;
    } else if c :| HandOnStep(s, s', c) {
      assert s'.ctl == s.ctl;
    } else if c :| CancelStep(s, s', c) {
      assert ReadyConn(s, c);
      CancelKept(s, s', c);
      KeptInv(s, s', c, {});
    } else if h :| h in s.ctl.handlers && HandlerStep(s, s', h) {
      HandlerKeepsInv(s, s', h);
    } else {
      var c :| c in s.ctl.conns && DispatcherStep(s, s', c);
      DispatcherKeepsInv(s, s', c);
    }
  }

  lemma {:induction false} RunKeepsInv(run: seq<State>, i: nat)
    requires IsRun(run) && i < |run|
    ensures Inv(run[i])
  {
    hide Next;
    if i > 0 {
      RunKeepsInv(run, i - 1);
      assert Next(run[i - 1], run[(i - 1) + 1]);
      NextKeepsInv(run[i - 1], run[i]);
    }
  }

  // The theorems

  /** onClosed exactly once: in every interleaving of handlers that close, fail to write
      or are cancelled, no more than one onClosed call ever completes for a connection,
      and exactly one has completed when its dispatcher returns. */
  lemma OnClosedOnce(run: seq<State>, i: nat, c: Cid)
    requires IsRun(run) && i < |run| && c in run[i].ctl.conns
    ensures run[i].ctl.conns[c].completed <= 1
    ensures run[i].ctl.conns[c].at.Returned? ==> run[i].ctl.conns[c].completed == 1
  {
    hide IsRun, WaitOk;
    RunKeepsInv(run, i);
    assert ConnOk(run[i].ctl, c);
  }

  /** What a handler does about the connection: one that is done, and whose write failed or
      that was asked to close, has seen the connection closed, the closed flag won and the
      context cancelled, and onClosed is being called or was called; one that was neither
      never comes to any of this. Nobody calls onClosed before the connection is closed. */
  lemma HandlerCloses(run: seq<State>, i: nat, h: Hid)
    requires IsRun(run) && i < |run| && h in run[i].ctl.handlers
    ensures var k := run[i].ctl; k.handlers[h].conn in k.conns
    ensures var k := run[i].ctl; var r, d := k.handlers[h], k.conns[k.handlers[h].conn];
      (r.at.Done? || r.at.Release?) && (r.asked || r.failed) ==>
        d.connClosed && d.flag && d.cancelled && (d.completed == 1 || Notified(k, r.conn, d))
    ensures var r := run[i].ctl.handlers[h];
      !r.asked && !r.failed ==> !r.at.Closing? && !r.at.Swap? && !r.at.Notify? && !r.at.Cancel?
    ensures var k := run[i].ctl; k.handlers[h].at.Notify? ==> k.conns[k.handlers[h].conn].connClosed
  {
    hide IsRun, WaitOk;
    RunKeepsInv(run, i);
    assert HandlerOk(run[i].ctl, h) && ConnOk(run[i].ctl, run[i].ctl.handlers[h].conn);
  }

  /** Somebody is in the course of calling onClosed for connection c. */
  predicate Notified(k: Control, c: Cid, d: Conn) {
    d.at.Notifying? || (d.winner.Some? && d.winner.value.Goroutine? && d.winner.value.handler in k.handlers &&
      k.handlers[d.winner.value.handler].conn == c && k.handlers[d.winner.value.handler].at.Notify?)
  }

  /** A dispatcher on its way out closes the connection before onClosed is called by anyone,
      and has cancelled its handlers before it waits for them; and it leaves only because
      ReadPacket has failed or its context has ended. */
  lemma DispatcherCloses(run: seq<State>, i: nat, c: Cid)
    requires IsRun(run) && i < |run| && c in run[i].ctl.conns
    ensures var d := run[i].ctl.conns[c];
      && (d.completed > 0 || d.flag || d.at.Notifying? || d.at.FirstNotify? || d.at.Returned? ==> d.connClosed)
      && (d.at.Waiting? ==> d.cancelled && d.flag)
      && (Leaving(d.at) ==> d.readFailed || (d.quit && d.cancelled))
  {
    hide IsRun, WaitOk;
    RunKeepsInv(run, i);
    assert ConnOk(run[i].ctl, c);
  }

  /** When a dispatcher has returned, none of its handlers is still running; at most
      they have yet to give back their token. */
  lemma NoHandlerAfterReturn(run: seq<State>, i: nat, h: Hid)
    requires IsRun(run) && i < |run| && h in run[i].ctl.handlers
    ensures var k := run[i].ctl;
      && k.handlers[h].conn in k.conns
      && (k.conns[k.handlers[h].conn].at.Returned? ==> k.handlers[h].at.Release?)
  {
    hide IsRun, WaitOk;
    RunKeepsInv(run, i);
    assert HandlerOk(run[i].ctl, h);
  }

  /** The handler goroutines that are inside a handler function. */
  ghost function RunningSet(k: Control): set<Hid> {
    set h | h in k.handlers && k.handlers[h].at.Running?
  }

  /** Limiter conservation: across all connections the tokens held are the handlers
      launched and not yet released, and the handlers running at once never exceed the
      configured concurrency. A handler that gives back its token never has to wait for
      it, and no wait group goes below zero. */
  lemma LimiterConserved(run: seq<State>, i: nat)
    requires IsRun(run) && i < |run| && run[i].concurrency > 1
    ensures run[i].ctl.limiter == |run[i].ctl.handlers| <= run[i].concurrency
    ensures |RunningSet(run[i].ctl)| <= run[i].concurrency
    ensures forall h :: h in run[i].ctl.handlers ==> run[i].ctl.limiter > 0
    ensures !run[i].fault
  {
    hide IsRun, ConnOk, WaitOk, HandlerOk;
    RunKeepsInv(run, i);
    var k := run[i].ctl;
    assert RunningSet(k) <= k.handlers.Keys;
    Subset(RunningSet(k), k.handlers.Keys);
    assert |k.handlers.Keys| == |k.handlers|;
    forall h | h in k.handlers
      ensures k.limiter > 0
    {
      Subset({h}, k.handlers.Keys);
    }
  }

  lemma {:induction false} Subset(a: set<Hid>, b: set<Hid>)
    requires a <= b
    ensures |a| <= |b|
    decreases a
  {
    if x :| x in a {
      Subset(a - {x}, b - {x});
    }
  }
}
