/** What holds of a connection after every sequence of steps the libraries and the
    application can take. */
module ConnectionRuns {
  import opened Common
  import opened Connection
  import S = StreamSend

  // ---- closing and the nghttp3 connection ----------------------------------

  predicate UsesH3(e: Effect)
  {
    e.H3New? || e.H3Call?
  }

  predicate Sends(e: Effect)
  {
    e.Datagram? || e.ClosePacket?
  }

  /** After nghttp3 reported an error nothing reaches it again, nor is it recreated. */
  ghost predicate SilentAfterFail(trace: seq<Effect>)
  {
    forall i, j | 0 <= i < j < |trace| && trace[i].H3Fail? :: !UsesH3(trace[j])
  }

  /** After the CONNECTION_CLOSE packet nothing is sent, not even a second one. */
  ghost predicate SilentAfterClose(trace: seq<Effect>)
  {
    forall i, j | 0 <= i < j < |trace| && trace[i].ClosePacket? :: !Sends(trace[j])
  }

  ghost predicate OneAbruptCause(trace: seq<Effect>)
  {
    forall i, j | 0 <= i < j < |trace| && trace[i].Abrupt? :: !trace[j].Abrupt?
  }

  predicate MayFollow(first: Effect, later: Effect)
  {
    && (first.H3Fail? ==> !UsesH3(later))
    && (first.ClosePacket? ==> !Sends(later))
    && (first.Abrupt? ==> !later.Abrupt?)
  }

  predicate OrderedAt(trace: seq<Effect>, i: nat, j: nat)
    requires i < j < |trace|
  {
    MayFollow(trace[i], trace[j])
  }

  ghost predicate InOrder(trace: seq<Effect>)
  {
    forall i: nat, j: nat {:trigger OrderedAt(trace, i, j)} | i < j < |trace| :: OrderedAt(trace, i, j)
  }

  /** What the flags say about an effect on record. */
  predicate Explained(l: Life, e: Effect)
  {
    match e
    case H3Fail(_) => !l.h3 && (l.wantClose || l.closed)
    case ClosePacket(err) => l.closed && err == l.ccerr && (l.wantClose || l.wantGraceful)
    case Abrupt(err) => l.wantClose && err == l.ccerr
    case Graceful(err) => l.wantGraceful && (l.wantClose || err == l.ccerr)
    case _ => true
  }

  ghost predicate AllExplained(l: Life)
  {
    forall e {:trigger Explained(l, e)} | e in l.trace :: Explained(l, e)
  }

  /** The record and the flags agree. */
  ghost predicate CloseInv(l: Life)
  {
    && InOrder(l.trace) && AllExplained(l)
    && (l.closed ==> l.phase == Idle)
    && (l.phase == InWrite ==> !l.wantClose)
    && (l.wantClose ==> Abrupt(l.ccerr) in l.trace)
    && (l.wantGraceful && !l.wantClose ==> Graceful(l.ccerr) in l.trace)
  }

  lemma {:induction false} InOrderMeans(trace: seq<Effect>)
    requires InOrder(trace)
    ensures SilentAfterFail(trace) && SilentAfterClose(trace) && OneAbruptCause(trace)
  {
    forall i: nat, j: nat | i < j < |trace|
      ensures MayFollow(trace[i], trace[j])
    {
      assert OrderedAt(trace, i, j);
    }
  }

  /** One more effect on record. */
  lemma {:induction false} Appended(l: Life, l': Life, e: Effect)
    requires CloseInv(l) && l'.trace == l.trace + [e]
    requires Explained(l', e)
    requires forall f | f in l.trace :: MayFollow(f, e) && Explained(l', f)
    ensures InOrder(l'.trace) && AllExplained(l')
  {
    forall i: nat, j: nat | i < j < |l'.trace|
      ensures OrderedAt(l'.trace, i, j)
    {
      assert l'.trace[i] == l.trace[i] && l.trace[i] in l.trace;
      if j < |l.trace| {
        assert OrderedAt(l.trace, i, j);
      }
    }
    forall f | f in l'.trace
      ensures Explained(l', f)
    {
    }
  }

  lemma {:induction false} CallH3Keeps(l: Life)
    requires CloseInv(l) && l.h3
    ensures CloseInv(CallH3(l))
  {
    forall f | f in l.trace
      ensures MayFollow(f, H3Call) && Explained(CallH3(l), f)
    {
      assert Explained(l, f);
    }
    Appended(l, CallH3(l), H3Call);
  }

  /** Changing what the record does not speak about. */
  lemma {:induction false} QuietKeeps(l: Life, l': Life)
    requires CloseInv(l) && l' == l.(phase := l'.phase, draining := l'.draining, hasUd := l'.hasUd)
    requires (l'.closed ==> l'.phase == Idle) && (l'.phase == InWrite ==> !l'.wantClose)
    ensures CloseInv(l')
  {
    forall f | f in l'.trace
      ensures Explained(l', f)
    {
      assert Explained(l, f);
    }
  }

  lemma {:induction false} ClosedKeeps(l: Life)
    requires CloseInv(l)
    ensures CloseInv(l.(closed := true, phase := Idle))
  {
    var l' := l.(closed := true, phase := Idle);
    forall f | f in l'.trace
      ensures Explained(l', f)
    {
      assert Explained(l, f);
    }
  }

  lemma {:induction false} WantCloseKeeps(l: Life, err: CloseError)
    requires CloseInv(l) && l.phase != InWrite
    ensures CloseInv(WantCloseUnlessEnding(l, err))
  {
    if !l.wantClose && !l.closed {
      var l' := WantClose(l, err);
      forall f | f in l.trace
        ensures MayFollow(f, Abrupt(err)) && Explained(l', f)
      {
        assert Explained(l, f);
      }
      Appended(l, l', Abrupt(err));
    }
  }

  /** nghttp3 fails, outside the write loop or as its last act. */
  lemma {:induction false} FailConnKeeps(l: Life, rv: int, phase: Phase)
    requires CloseInv(l) && l.h3 && phase != InWrite && (l.closed ==> phase == Idle)
    ensures CloseInv(FailConn(l, rv).(phase := phase))
  {
    var ending := l.wantClose || l.closed;
    var gone := l.(h3 := false, phase := phase);
    var e, err := H3Fail(rv), H3Error(rv);
    if ending {
      forall f | f in l.trace
        ensures MayFollow(f, e) && Explained(Log(gone, e), f)
      {
        assert Explained(l, f);
      }
      Appended(l, Log(gone, e), e);
      assert FailConn(l, rv).(phase := phase) == Log(gone, e);
    } else {
      var l1 := Log(gone.(wantClose := true, ccerr := err), Abrupt(err));
      forall f | f in l.trace
        ensures MayFollow(f, Abrupt(err)) && Explained(l1, f)
      {
        assert Explained(l, f);
      }
      Appended(l, l1, Abrupt(err));
      FailOrder(l.trace, e, Abrupt(err));
      var l2 := FailConn(l, rv).(phase := phase);
      assert l2 == l1.(trace := l.trace + [e] + [Abrupt(err)]);
      forall f | f in l2.trace
        ensures Explained(l2, f)
      {
        assert f in l1.trace ==> Explained(l1, f);
      }
    }
  }

  /** A failure report between what came before and the close it causes. */
  lemma {:induction false} FailOrder(trace: seq<Effect>, fail: Effect, last: Effect)
    requires InOrder(trace + [last]) && fail.H3Fail? && last.Abrupt?
    ensures InOrder(trace + [fail] + [last])
  {
    var u, t := trace + [last], trace + [fail] + [last];
    forall i: nat, j: nat | i < j < |t|
      ensures OrderedAt(t, i, j)
    {
      if i < |trace| && j != |trace| {
        var j' := if j < |trace| then j else |trace|;
        assert OrderedAt(u, i, j') && u[i] == t[i] && u[j'] == t[j];
      }
    }
  }

  lemma {:induction false} SendCloseKeeps(l: Life, emitted: bool)
    requires CloseInv(l) && !l.closed && (l.wantClose || l.wantGraceful)
    ensures CloseInv(SendClose(l, emitted))
  {
    if emitted {
      var e, l' := ClosePacket(l.ccerr), SendClose(l, emitted);
      forall f | f in l.trace
        ensures MayFollow(f, e) && Explained(l', f)
      {
        assert Explained(l, f);
      }
      Appended(l, l', e);
    } else {
      ClosedKeeps(l);
    }
  }

  lemma {:induction false} DatagramKeeps(l: Life, sendOk: bool)
    requires CloseInv(l) && l.phase == InWrite
    ensures CloseInv(if sendOk then Log(l, Datagram) else Log(l, Datagram).(phase := Idle))
  {
    var l' := Log(l, Datagram);
    forall f | f in l.trace
      ensures MayFollow(f, Datagram) && Explained(l', f)
    {
      assert Explained(l, f);
    }
    Appended(l, l', Datagram);
    QuietKeeps(l', l'.(phase := Idle));
  }

  lemma {:induction false} HandshakeKeeps(l: Life, setup: Setup)
    requires CloseInv(l) && l.phase == InPacket
    ensures CloseInv(CompleteHandshake(l, setup))
  {
    if !(l.wantClose || l.closed || l.h3) {
      var l' := Log(l.(h3 := true), H3New);
      forall f | f in l.trace
        ensures MayFollow(f, H3New) && Explained(l', f)
      {
        assert Explained(l, f);
      }
      Appended(l, l', H3New);
      QuietKeeps(l', l'.(phase := Failing));
      QuietKeeps(l, l.(phase := Failing));
    }
  }

  lemma {:induction false} EndPacketKeeps(l: Life, r: ReadRv)
    requires CloseInv(l) && (l.phase == InPacket || l.phase == Failing)
    ensures CloseInv(EndPacket(l, r))
  {
    var l1 := l.(phase := Idle);
    QuietKeeps(l, l1);
    match r
    case ReadOk =>
    case ReadDraining => QuietKeeps(l, l1.(draining := true));
    case ReadDrop => ClosedKeeps(l);
    case ReadCrypto(alert) => WantCloseKeeps(l1, TlsAlert(alert));
    case ReadOther(rv) => WantCloseKeeps(l1, LibError(rv));
  }

  lemma {:induction false} CloseCleanlyKeeps(l: Life, code: nat)
    requires CloseInv(l)
    ensures CloseInv(CloseCleanly(l, code))
  {
    if !(l.wantClose || l.wantGraceful || l.closed) {
      var e, l' := Graceful(AppError(code)), CloseCleanly(l, code);
      forall f | f in l.trace
        ensures MayFollow(f, e) && Explained(l', f)
      {
        assert Explained(l, f);
      }
      Appended(l, l', e);
    }
  }

  lemma {:induction false} CallKeepsPhase(c: Conn, a: AppStep)
    requires Wf(c) && AppLegal(c, a)
    ensures ApplyCall(c, a).life.phase == c.life.phase
  {
    match a
    case Send(id, call) => assert SendCall(c, id, call).life.phase == c.life.phase;
    case StopSending(id, h3Rv, quicRv) => StopKeepsPhase(c, id, h3Rv, quicRv);
    case CloseAbrupt(code) => assert CloseNow(c.life, code).phase == c.life.phase;
    case CloseGraceful(code) => assert CloseCleanly(c.life, code).phase == c.life.phase;
    case _ =>
  }

  lemma {:induction false} StopKeepsPhase(c: Conn, id: int, h3Rv: int, quicRv: int)
    requires Wf(c)
    ensures StopReading(c, id, h3Rv, quicRv).life.phase == c.life.phase
  {
    var l := if c.life.h3 then CallH3(c.life) else c.life;
    assert FailConn(CallH3(c.life), h3Rv).phase == c.life.phase;
    assert WantCloseUnlessEnding(l, LibError(quicRv)).phase == c.life.phase;
  }

  lemma {:induction false} CloseStreamKeepsClose(cfg: Config, c: Conn, id: int, appErrorSet: bool)
    requires CloseInv(c.life) && c.life.phase == InPacket
    ensures CloseInv(CloseStreamLife(cfg, c, id, appErrorSet))
  {
    if c.life.h3 {
      CallH3Keeps(c.life);
    }
    WantCloseKeeps(if c.life.h3 then CallH3(c.life) else c.life, AppError(H3_EXCESSIVE_LOAD));
  }

  lemma {:induction false} ReceiveKeepsClose(l: Life, rv: int)
    requires CloseInv(l) && l.h3 && l.phase == InPacket
    ensures CloseInv(CallH3(l)) && CloseInv(FailConn(CallH3(l), rv).(phase := Failing))
  {
    CallH3Keeps(l);
    FailConnKeeps(CallH3(l), rv, Failing);
  }

  lemma {:induction false} PacketKeepsClose(cfg: Config, c: Conn, p: PacketStep)
    requires CloseInv(c.life) && Wf(c) && PacketLegal(c, p)
    ensures CloseInv(ApplyPacket(cfg, c, p).life)
  {
    var l := c.life;
    if l.h3 {
      CallH3Keeps(l);
    }
    match p
    case Begin =>
      if !l.wantClose && !l.closed {
        QuietKeeps(l, l.(phase := InPacket));
      }
    case HandshakeCompleted(setup) => HandshakeKeeps(l, setup);
    case RecvStreamData(_, _, rv, _, _) =>
      if l.h3 {
        ReceiveKeepsClose(l, rv);
      }
    case StreamClose(id, appErrorSet, known) => CloseStreamKeepsClose(cfg, c, id, appErrorSet);
    case ExtendMaxStreamData(_, _, rv) =>
      if l.h3 && rv != 0 {
        QuietKeeps(CallH3(l), CallH3(l).(phase := Failing));
      }
    case CidCallback(_) => QuietKeeps(l, l.(phase := Failing));
    case Done(r) => EndPacketKeeps(l, r);
    case _ =>
  }

  /** The lifecycle sees of these steps only the calls into nghttp3. */
  lemma {:induction false} OfferLife(c: Conn, id: int, step: S.TxStep)
    requires Wf(c) && TxLegal(c, OfferedId(c, id), step)
    ensures Asked(c, id, step).life == (if MayOffer(c) then CallH3(c.life) else c.life)
    ensures Parked(c, id, step).life == TakenLife(c, id)
  {
  }

  lemma {:induction false} TakeLife(c: Conn, id: int, n: nat, fin: bool)
    requires Wf(c) && TakeLegal(c, id, n, fin)
    ensures Taken(c, id, n, fin).life == TakenLife(c, id)
  {
  }

  lemma {:induction false} TakenKeepsClose(c: Conn, id: int)
    requires CloseInv(c.life)
    ensures CloseInv(TakenLife(c, id)) && TakenLife(c, id) == c.life.(trace := TakenLife(c, id).trace)
  {
    if c.life.h3 {
      CallH3Keeps(c.life);
    }
  }

  lemma {:induction false} BrokenKeepsClose(l: Life, rv: int, emitted: bool)
    requires CloseInv(l) && l.h3 && l.phase == InWrite
    ensures CloseInv(SendClose(FailConn(CallH3(l), rv), emitted))
  {
    CallH3Keeps(l);
    FailConnKeeps(CallH3(l), rv, Idle);
    var f := FailConn(CallH3(l), rv);
    SendCloseKeeps(f.(phase := Idle), emitted);
    assert SendClose(f, emitted) == SendClose(f.(phase := Idle), emitted);
  }

  lemma {:induction false} StartKeepsClose(l: Life, emitted: bool)
    requires CloseInv(l) && l.phase == Idle
    ensures CloseInv(StartWrite(l, emitted))
  {
    if !l.closed && l.wantClose {
      SendCloseKeeps(l, emitted);
    } else if !l.closed {
      QuietKeeps(l, l.(phase := InWrite));
    }
  }

  lemma {:induction false} NothingKeepsClose(l: Life, emitted: bool)
    requires CloseInv(l) && l.phase == InWrite
    ensures CloseInv(NothingLeft(l, emitted))
  {
    if l.wantGraceful && !l.closed {
      SendCloseKeeps(l, emitted);
    } else {
      QuietKeeps(l, l.(phase := Idle));
    }
  }

  lemma {:induction false} WriteKeepsClose(c: Conn, w: WriteStep)
    requires CloseInv(c.life) && Wf(c) && WriteLegal(c, w)
    ensures CloseInv(ApplyWrite(c, w).life)
  {
    var l := c.life;
    match w
    case Start(emitted) => StartKeepsClose(l, emitted);
    case ReadBody(id) => AskedKeepsClose(c, id, S.ReadBody);
    case Frame(id, n) => AskedKeepsClose(c, id, S.Frame(n));
    case H3Broke(rv, emitted) =>
      if MayOffer(c) {
        BrokenKeepsClose(l, rv, emitted);
      }
    case More(id, n, fin) =>
      TakeLife(c, id, n, fin);
      TakenKeepsClose(c, id);
    case Blocked(id) =>
      OfferLife(c, id, S.RefuseBlocked);
      TakenKeepsClose(c, id);
    case Shut(id) =>
      OfferLife(c, id, S.RefuseShut);
      TakenKeepsClose(c, id);
    case Packet(id, n, fin, sendOk) =>
      TakeLife(c, id, n, fin);
      TakenKeepsClose(c, id);
      DatagramKeeps(TakenLife(c, id), sendOk);
    case NewCid =>
    case Draining => QuietKeeps(l, l.(draining := true, phase := Idle));
    case Fatal => ClosedKeeps(l);
    case Nothing(emitted) => NothingKeepsClose(l, emitted);
  }

  lemma {:induction false} AskedKeepsClose(c: Conn, id: int, step: S.TxStep)
    requires CloseInv(c.life) && Wf(c) && TxLegal(c, OfferedId(c, id), step)
    ensures CloseInv(Asked(c, id, step).life)
  {
    OfferLife(c, id, step);
    if MayOffer(c) {
      CallH3Keeps(c.life);
    }
  }

  lemma {:induction false} StopKeepsClose(c: Conn, id: int, h3Rv: int, quicRv: int)
    requires CloseInv(c.life) && Wf(c) && c.life.phase != InWrite
    ensures CloseInv(StopReading(c, id, h3Rv, quicRv).life)
  {
    if c.life.h3 {
      CallH3Keeps(c.life);
      FailConnKeeps(CallH3(c.life), h3Rv, c.life.phase);
      var f := FailConn(CallH3(c.life), h3Rv);
      assert f.(phase := c.life.phase) == f;
    }
    WantCloseKeeps(if c.life.h3 then CallH3(c.life) else c.life, LibError(quicRv));
  }

  lemma {:induction false} CallKeepsClose(c: Conn, a: AppStep)
    requires CloseInv(c.life) && Wf(c) && AppLegal(c, a)
    ensures CloseInv(ApplyCall(c, a).life)
  {
    var l := c.life;
    if l.h3 {
      CallH3Keeps(l);
    }
    match a
    case StopSending(id, h3Rv, quicRv) => StopKeepsClose(c, id, h3Rv, quicRv);
    case CloseAbrupt(code) =>
      QuietKeeps(l, l.(hasUd := false));
      WantCloseKeeps(l.(hasUd := false), AppError(code));
    case CloseGraceful(code) => CloseCleanlyKeeps(l, code);
    case _ =>
  }

  lemma {:induction false} StepKeepsClose(cfg: Config, c: Conn, step: Step)
    requires CloseInv(c.life) && Wf(c) && Legal(c, step)
    ensures CloseInv(Apply(cfg, c, step).life)
  {
    match step
    case OnPacket(p) => PacketKeepsClose(cfg, c, p);
    case OnWrite(w) => WriteKeepsClose(c, w);
    case OnCall(a) => CallKeepsClose(c, a);
    case ExpiryFailed => ClosedKeeps(c.life);
  }

  // ---- receive credit ------------------------------------------------------

  /** The same for one stream. */
  predicate FlowInv(k: Credit, id: int)
  {
    var f := FlowOf(k, id);
    f.max == InitialWindow(k, id) + f.credited && f.credited <= f.received <= f.max
  }

  /** Data is dropped without credit only once the connection is ending. */
  predicate LossInv(c: Conn)
  {
    c.credit.dropped > 0 ==> c.life.wantClose || c.life.closed
  }

  /** The advertised limits are the initial ones plus what was given back; every
      received byte is accounted for once; a stream that closed made room for one. */
  ghost predicate CreditInv(cfg: Config, k: Credit)
  {
    && k.maxData == InitialMaxData(cfg) + k.credited
    && k.received == k.credited + k.appHeld + k.deferred + k.early + k.dropped
    && k.received <= k.maxData
    && k.bidi == InitialBidiWindow(cfg)
    && (forall id {:trigger FlowInv(k, id)} | id in k.flows :: FlowInv(k, id))
    && k.maxBidi == InitialMaxStreams(cfg) + k.finished
    && k.started == k.finished + |k.open|
    && k.started <= k.maxBidi
  }

  // ---- reset budget --------------------------------------------------------

  predicate OneMark(c: Conn, id: int)
    requires id in c.streams
  {
    !(c.streams[id].stopSent && c.streams[id].peerReset)
  }

  predicate OpenTracked(c: Conn, id: int)
  {
    IsRequest(id) && id in c.streams
  }

  ghost predicate ResetInv(cfg: Config, c: Conn)
  {
    && (forall id {:trigger OneMark(c, id)} | id in c.streams :: OneMark(c, id))
    && (forall id {:trigger OpenTracked(c, id)} | id in c.credit.open :: OpenTracked(c, id))
    && (cfg.maxResetStreams > 0 && c.resetCount > cfg.maxResetStreams ==> c.life.wantClose || c.life.closed)
    && (cfg.maxResetStreams == 0 ==> c.resetCount == 0)
  }

  // ---- the sending side ----------------------------------------------------

  /** HTTP/3 is still running on the connection. */
  predicate Live(l: Life)
  {
    !l.wantClose && !l.closed && l.phase != Failing
  }

  ghost predicate SendInv(c: Conn)
  {
    forall id {:trigger SendOk(c, id)} | id in c.streams :: SendOk(c, id)
  }

  /** The stream's sending side is sound and, while HTTP/3 runs, parked only with cause. */
  ghost predicate SendOk(c: Conn, id: int)
    requires id in c.streams
  {
    && id >= 0 && S.TxCore(c.streams[id].tx)
    && (Live(c.life) ==> S.Justified(c.streams[id].tx.gate) && (!c.life.h3 ==> !c.streams[id].tx.gate.blocked))
  }

  lemma {:induction false} TxKeepsSend(c: Conn, id: int, step: S.TxStep)
    requires SendInv(c) && Wf(c) && TxLegal(c, id, step)
    requires c.life.h3 || step.ShutWrite?
    ensures SendInv(Tx(c, id, step))
  {
    if id in c.streams {
      assert SendOk(c, id);
      S.ApplyKeeps(c.streams[id].tx, step);
      UpdateKeepsSend(c, id, c.streams[id].(tx := S.Apply(c.streams[id].tx, step)), Tx(c, id, step));
    }
  }

  /** Only stream `id` changed. */
  lemma {:induction false} UpdateKeepsSend(c: Conn, id: int, s: Stream, c': Conn)
    requires SendInv(c) && c'.streams == c.streams[id := s]
    requires Live(c'.life) ==> Live(c.life) && (c.life.h3 ==> c'.life.h3)
    requires SendOk(c', id)
    ensures SendInv(c')
  {
    forall i | i in c'.streams
      ensures SendOk(c', i)
    {
      assert i != id ==> SendOk(c, i);
    }
  }

  lemma {:induction false} WiderKeeps(s: Stream, n: nat)
    requires S.TxCore(s.tx)
    ensures S.TxCore(WiderWindow(s, n).tx) && WiderWindow(s, n).tx.gate.blocked == s.tx.gate.blocked
  {
    assert WiderWindow(s, n).tx.body == s.tx.body;
  }

  lemma {:induction false} ExtendStreamKeepsSend(c: Conn, id: int, n: nat, rv: int)
    requires SendInv(c) && Wf(c) && c.life.phase == InPacket
    ensures SendInv(ExtendStream(c, id, n, rv))
  {
    if c.life.h3 && rv == 0 {
      CallKeepsStreams(c);
      TxKeepsSend(Call(c), id, S.ExtendWindow(n));
    } else {
      var r := ExtendStream(c, id, n, rv);
      if id in c.streams {
        assert SendOk(c, id);
        WiderKeeps(c.streams[id], n);
        UpdateKeepsSend(c, id, WiderWindow(c.streams[id], n), r);
      } else {
        SameStreamsSending(c, r);
        SameSendingKeeps(c, r);
      }
    }
  }

  /** A step that leaves the sending side of every surviving stream alone, and does not
      bring HTTP/3 back. */
  ghost predicate SameSending(c: Conn, c': Conn)
  {
    && (forall id {:trigger SameTx(c, c', id)} | id in c'.streams :: SameTx(c, c', id))
    && (Live(c'.life) ==> Live(c.life) && (c.life.h3 ==> c'.life.h3))
  }

  predicate SameTx(c: Conn, c': Conn, id: int)
    requires id in c'.streams
  {
    id in c.streams && c'.streams[id].tx == c.streams[id].tx
  }

  lemma {:induction false} SameStreamsSending(c: Conn, c': Conn)
    requires c'.streams == c.streams
    requires Live(c'.life) ==> Live(c.life) && (c.life.h3 ==> c'.life.h3)
    ensures SameSending(c, c')
  {
    forall id | id in c'.streams
      ensures SameTx(c, c', id)
    {
    }
  }

  lemma {:induction false} SameSendingKeeps(c: Conn, c': Conn)
    requires SendInv(c) && SameSending(c, c')
    ensures SendInv(c')
  {
    forall i | i in c'.streams
      ensures SendOk(c', i)
    {
      assert SameTx(c, c', i) && SendOk(c, i);
    }
  }

  lemma {:induction false} CallKeepsStreams(c: Conn)
    requires SendInv(c)
    ensures SendInv(Call(c))
  {
    SameStreamsSending(c, Call(c));
    SameSendingKeeps(c, Call(c));
  }

  lemma {:induction false} OpenKeepsSend(c: Conn, id: int, window: nat)
    requires SendInv(c) && Wf(c) && id >= 0
    ensures SendInv(OpenStream(c, id, window))
  {
    if IsRequest(id) {
      S.NewTxInv(window);
      UpdateKeepsSend(c, id, Stream(S.NewTx(window), false, false), OpenStream(c, id, window));
    }
  }

  lemma {:induction false} CloseStreamSending(cfg: Config, c: Conn, id: int, appErrorSet: bool, known: bool)
    requires Wf(c)
    ensures SameSending(c, CloseStream(cfg, c, id, appErrorSet, known))
  {
    var c' := CloseStream(cfg, c, id, appErrorSet, known);
    forall i | i in c'.streams
      ensures SameTx(c, c', i)
    {
    }
  }

  lemma {:induction false} ResetSending(c: Conn, id: int)
    requires Wf(c)
    ensures SameSending(c, ResetByPeer(c, id))
  {
    forall i | i in ResetByPeer(c, id).streams
      ensures SameTx(c, ResetByPeer(c, id), i)
    {
    }
  }

  lemma {:induction false} QuietPacketSending(cfg: Config, c: Conn, p: PacketStep)
    requires CloseInv(c.life) && Wf(c) && PacketLegal(c, p)
    requires !p.StreamOpen? && !p.AckedStreamData? && !p.ExtendMaxStreamData? && !p.WriteSideShut?
    ensures SameSending(c, ApplyPacket(cfg, c, p))
  {
    var c' := ApplyPacket(cfg, c, p);
    if p.StreamClose? {
      CloseStreamSending(cfg, c, p.id, p.appErrorSet, p.known);
    } else if p.StreamReset? {
      ResetSending(c, p.id);
    } else {
      SameStreamsSending(c, c');
    }
  }

  lemma {:induction false} PacketKeepsSend(cfg: Config, c: Conn, p: PacketStep)
    requires SendInv(c) && CloseInv(c.life) && Wf(c) && PacketLegal(c, p)
    ensures SendInv(ApplyPacket(cfg, c, p))
  {
    match p
    case StreamOpen(id, window) => OpenKeepsSend(c, id, window);
    case AckedStreamData(id, n) =>
      if c.life.h3 {
        CallKeepsStreams(c);
        TxKeepsSend(Call(c), id, S.Acknowledge(n));
      }
    case ExtendMaxStreamData(id, n, rv) => ExtendStreamKeepsSend(c, id, n, rv);
    case WriteSideShut(id) => TxKeepsSend(c, id, S.ShutWrite);
    case _ =>
      QuietPacketSending(cfg, c, p);
      SameSendingKeeps(c, ApplyPacket(cfg, c, p));
  }

  lemma {:induction false} AskedKeepsSend(c: Conn, id: int, step: S.TxStep)
    requires SendInv(c) && Wf(c) && TxLegal(c, OfferedId(c, id), step)
    ensures SendInv(Asked(c, id, step))
  {
    if MayOffer(c) {
      CallKeepsStreams(c);
      TxKeepsSend(Call(c), id, step);
    }
  }

  lemma {:induction false} TakenKeepsSend(c: Conn, id: int, n: nat, fin: bool)
    requires SendInv(c) && Wf(c) && TakeLegal(c, id, n, fin)
    ensures SendInv(Taken(c, id, n, fin))
  {
    var sid := OfferedId(c, id);
    var d := c.(life := TakenLife(c, id), sendLeft := c.sendLeft - n);
    SameStreamsSending(c, d);
    SameSendingKeeps(c, d);
    assert sid in c.streams ==> SendOk(c, sid);
    if sid >= 0 {
      TxKeepsSend(d, sid, S.Transmit(n, fin));
    }
  }

  lemma {:induction false} ParkedKeepsSend(c: Conn, id: int, step: S.TxStep)
    requires SendInv(c) && Wf(c) && TxLegal(c, OfferedId(c, id), step)
    ensures SendInv(Parked(c, id, step))
  {
    if c.life.h3 && OfferedId(c, id) >= 0 {
      CallKeepsStreams(c);
      TxKeepsSend(Call(c), OfferedId(c, id), step);
    }
  }

  lemma {:induction false} QuietWriteSending(c: Conn, w: WriteStep)
    requires CloseInv(c.life) && Wf(c) && WriteLegal(c, w)
    requires w.Start? || w.H3Broke? || w.NewCid? || w.Draining? || w.Fatal? || w.Nothing?
    ensures SameSending(c, ApplyWrite(c, w))
  {
    SameStreamsSending(c, ApplyWrite(c, w));
  }

  lemma {:induction false} WriteKeepsSend(c: Conn, w: WriteStep)
    requires SendInv(c) && CloseInv(c.life) && Wf(c) && WriteLegal(c, w)
    ensures SendInv(ApplyWrite(c, w))
  {
    match w
    case ReadBody(id) => AskedKeepsSend(c, id, S.ReadBody);
    case Frame(id, n) => AskedKeepsSend(c, id, S.Frame(n));
    case More(id, n, fin) => TakenKeepsSend(c, id, n, fin);
    case Blocked(id) => ParkedKeepsSend(c, id, S.RefuseBlocked);
    case Shut(id) => ParkedKeepsSend(c, id, S.RefuseShut);
    case Packet(id, n, fin, _) =>
      TakenKeepsSend(c, id, n, fin);
      SameStreamsSending(Taken(c, id, n, fin), ApplyWrite(c, w));
      SameSendingKeeps(Taken(c, id, n, fin), ApplyWrite(c, w));
    case _ =>
      QuietWriteSending(c, w);
      SameSendingKeeps(c, ApplyWrite(c, w));
  }

  lemma {:induction false} SendCallKeepsSend(c: Conn, id: int, call: S.TxStep)
    requires SendInv(c) && Wf(c) && IsAppCall(call)
    ensures SendInv(SendCall(c, id, call))
  {
    if id in c.streams && c.life.h3 && ReachesH3(c.streams[id].tx, call) {
      CallKeepsStreams(c);
      TxKeepsSend(Call(c), id, call);
    }
  }

  lemma {:induction false} StopSending(c: Conn, id: int, h3Rv: int, quicRv: int)
    requires Wf(c)
    ensures SameSending(c, StopReading(c, id, h3Rv, quicRv))
  {
    StopShape(c, id, h3Rv, quicRv);
    StoppedSending(c, StopReading(c, id, h3Rv, quicRv), id);
  }

  lemma {:induction false} StoppedSending(c: Conn, c': Conn, id: int)
    requires Stopped(c, c', id)
    ensures SameSending(c, c')
  {
    forall i | i in c'.streams
      ensures SameTx(c, c', i)
    {
    }
  }

  lemma {:induction false} QuietCallSending(c: Conn, a: AppStep)
    requires Wf(c) && AppLegal(c, a) && !a.Send? && !a.ResetStream?
    ensures SameSending(c, ApplyCall(c, a))
  {
    var c' := ApplyCall(c, a);
    if a.StopSending? {
      StopSending(c, a.id, a.h3Rv, a.quicRv);
    } else {
      SameStreamsSending(c, c');
    }
  }

  lemma {:induction false} CallKeepsSend(c: Conn, a: AppStep)
    requires SendInv(c) && Wf(c) && AppLegal(c, a)
    ensures SendInv(ApplyCall(c, a))
  {
    match a
    case Send(id, call) => SendCallKeepsSend(c, id, call);
    case ResetStream(id) => TxKeepsSend(c, id, S.ShutWrite);
    case _ =>
      QuietCallSending(c, a);
      SameSendingKeeps(c, ApplyCall(c, a));
  }

  // ---- every run -----------------------------------------------------------

  ghost predicate Inv(cfg: Config, c: Conn)
  {
    CloseInv(c.life) && CreditInv(cfg, c.credit) && LossInv(c) && ResetInv(cfg, c) && SendInv(c)
  }

  lemma {:induction false} AcceptInv(cfg: Config, adm: Admission, sendLeft: nat)
    ensures Inv(cfg, Accept(cfg, adm, sendLeft))
  {
  }

  lemma {:induction false} ArriveKeeps(cfg: Config, k: Credit, id: int, len: nat)
    requires CreditInv(cfg, k) && MayArrive(k, id, len)
    ensures forall i | i in Arrive(k, id, len).flows :: FlowInv(Arrive(k, id, len), i)
    ensures FlowOf(Arrive(k, id, len), id).credited + len <= FlowOf(Arrive(k, id, len), id).received
  {
    assert FlowInv(k, id);
    forall i | i in Arrive(k, id, len).flows
      ensures FlowInv(Arrive(k, id, len), i)
    {
      assert i in k.flows ==> FlowInv(k, i);
    }
  }

  lemma {:induction false} ExtendKeeps(k: Credit, id: int, n: nat)
    requires (forall i | i in k.flows :: FlowInv(k, i)) && MayReturn(k, id, n)
    ensures forall i | i in Extend(k, id, n).flows :: FlowInv(Extend(k, id, n), i)
  {
    forall i | i in Extend(k, id, n).flows
      ensures FlowInv(Extend(k, id, n), i)
    {
      assert i in k.flows ==> FlowInv(k, i);
    }
  }

  lemma {:induction false} ReceiveKeepsCredit(cfg: Config, c: Conn, id: int, len: nat, rv: int, body: nat, kept: nat)
    requires CreditInv(cfg, c.credit) && id >= 0 && MayArrive(c.credit, id, len)
    requires rv >= 0 ==> rv + body + kept == len
    ensures CreditInv(cfg, ReceiveData(c, id, len, rv, body, kept).credit)
  {
    var arrived := Arrive(c.credit, id, len);
    ArriveKeeps(cfg, c.credit, id, len);
    if c.life.h3 && rv >= 0 {
      ExtendKeeps(arrived, id, rv);
      var k := ReceiveData(c, id, len, rv, body, kept).credit;
      forall i | i in k.flows
        ensures FlowInv(k, i)
      {
        assert FlowInv(Extend(arrived, id, rv), i);
      }
    } else {
      var k := Lose(c, arrived, len);
      forall i | i in k.flows
        ensures FlowInv(k, i)
      {
        assert FlowInv(arrived, i);
      }
    }
  }

  lemma {:induction false} ReturnKeepsCredit(cfg: Config, k: Credit, k1: Credit, id: int, n: nat)
    requires CreditInv(cfg, k) && MayReturn(k, id, n)
    requires k1 == k.(appHeld := k1.appHeld, deferred := k1.deferred)
    requires k1.appHeld + k1.deferred + n == k.appHeld + k.deferred
    ensures CreditInv(cfg, Extend(k1, id, n))
  {
    forall i | i in k1.flows
      ensures FlowInv(k1, i)
    {
      assert FlowInv(k, i);
    }
    ExtendKeeps(k1, id, n);
  }

  lemma {:induction false} DiscardKeepsCredit(cfg: Config, k: Credit, id: int, len: nat)
    requires CreditInv(cfg, k) && MayArrive(k, id, len)
    ensures CreditInv(cfg, ExtendConn(Arrive(k, id, len), len))
  {
    ArriveKeeps(cfg, k, id, len);
    var k1 := ExtendConn(Arrive(k, id, len), len);
    forall i | i in k1.flows
      ensures FlowInv(k1, i)
    {
      assert FlowInv(Arrive(k, id, len), i);
    }
  }

  /** A step that moves no data. */
  predicate SameFlows(k: Credit, k1: Credit)
  {
    k1 == k.(maxBidi := k1.maxBidi, started := k1.started, finished := k1.finished, open := k1.open)
  }

  lemma {:induction false} StreamCountKeeps(cfg: Config, c: Conn, p: PacketStep)
    requires CreditInv(cfg, c.credit) && Wf(c) && PacketLegal(c, p) && (p.StreamOpen? || p.StreamClose?)
    ensures SameFlows(c.credit, ApplyPacket(cfg, c, p).credit)
    ensures CreditInv(cfg, ApplyPacket(cfg, c, p).credit)
  {
    var k, k1 := c.credit, ApplyPacket(cfg, c, p).credit;
    if p.StreamOpen? {
      assert p.id !in k.open;
    } else {
      assert IsRequest(p.id) ==> |k.open - {p.id}| == |k.open| - 1;
    }
    forall i | i in k1.flows
      ensures FlowInv(k1, i)
    {
      assert FlowInv(k, i);
    }
  }

  lemma {:induction false} QuietPacketCredit(cfg: Config, c: Conn, p: PacketStep)
    requires Wf(c) && PacketLegal(c, p)
    requires !p.StreamOpen? && !p.StreamClose? && !p.RecvStreamData? && !p.DiscardData? && !p.DeferredConsume?
    ensures ApplyPacket(cfg, c, p).credit == c.credit
  {
    match p
    case AckedStreamData(id, n) =>
      if c.life.h3 {
        assert Tx(Call(c), id, S.Acknowledge(n)).credit == c.credit;
      }
    case ExtendMaxStreamData(id, n, rv) => assert ExtendStream(c, id, n, rv).credit == c.credit;
    case WriteSideShut(id) => assert Tx(c, id, S.ShutWrite).credit == c.credit;
    case _ =>
  }

  lemma {:induction false} PacketKeepsCredit(cfg: Config, c: Conn, p: PacketStep)
    requires CreditInv(cfg, c.credit) && Wf(c) && PacketLegal(c, p)
    ensures CreditInv(cfg, ApplyPacket(cfg, c, p).credit)
  {
    match p
    case StreamOpen(_, _) => StreamCountKeeps(cfg, c, p);
    case StreamClose(_, _, _) => StreamCountKeeps(cfg, c, p);
    case RecvStreamData(id, len, rv, body, kept) => ReceiveKeepsCredit(cfg, c, id, len, rv, body, kept);
    case DiscardData(id, len) =>
      DiscardKeepsCredit(cfg, c.credit, id, len);
      DiscardCredit(cfg, c, id, len);
    case DeferredConsume(id, n) =>
      ReturnKeepsCredit(cfg, c.credit, c.credit.(deferred := c.credit.deferred - n), id, n);
      DeferredCredit(cfg, c, id, n);
    case _ => QuietPacketCredit(cfg, c, p);
  }

  lemma {:induction false} DiscardCredit(cfg: Config, c: Conn, id: int, len: nat)
    requires Wf(c) && PacketLegal(c, DiscardData(id, len))
    ensures ApplyPacket(cfg, c, DiscardData(id, len)).credit == ExtendConn(Arrive(c.credit, id, len), len)
  {
  }

  lemma {:induction false} DeferredCredit(cfg: Config, c: Conn, id: int, n: nat)
    requires Wf(c) && PacketLegal(c, DeferredConsume(id, n))
    ensures ApplyPacket(cfg, c, DeferredConsume(id, n)).credit
            == Extend(c.credit.(deferred := c.credit.deferred - n), id, n)
  {
  }

  lemma {:induction false} CallKeepsCredit(cfg: Config, c: Conn, a: AppStep)
    requires CreditInv(cfg, c.credit) && Wf(c) && AppLegal(c, a)
    ensures CreditInv(cfg, ApplyCall(c, a).credit)
  {
    if a.Consume? {
      ConsumeKeepsCredit(cfg, c.credit, a.id, a.n);
      ConsumeCredit(c, a.id, a.n);
    } else {
      QuietCallCredit(c, a);
    }
  }

  lemma {:induction false} ConsumeKeepsCredit(cfg: Config, k: Credit, id: int, n: nat)
    requires CreditInv(cfg, k) && n <= k.appHeld && MayReturn(k, id, n)
    ensures CreditInv(cfg, Extend(k.(appHeld := k.appHeld - n), id, n))
  {
    ReturnKeepsCredit(cfg, k, k.(appHeld := k.appHeld - n), id, n);
  }

  lemma {:induction false} ConsumeCredit(c: Conn, id: int, n: nat)
    requires Wf(c) && AppLegal(c, Consume(id, n))
    ensures ApplyCall(c, Consume(id, n)).credit == Extend(c.credit.(appHeld := c.credit.appHeld - n), id, n)
  {
  }

  lemma {:induction false} QuietCallCredit(c: Conn, a: AppStep)
    requires Wf(c) && AppLegal(c, a) && !a.Consume?
    ensures ApplyCall(c, a).credit == c.credit
  {
    match a
    case Send(id, call) => assert SendCall(c, id, call).credit == c.credit;
    case StopSending(id, h3Rv, quicRv) => assert StopReading(c, id, h3Rv, quicRv).credit == c.credit;
    case ResetStream(id) => assert Tx(c, id, S.ShutWrite).credit == c.credit;
    case _ =>
  }

  lemma {:induction false} StepKeepsCredit(cfg: Config, c: Conn, step: Step)
    requires CreditInv(cfg, c.credit) && Wf(c) && Legal(c, step)
    ensures CreditInv(cfg, Apply(cfg, c, step).credit)
  {
    match step
    case OnPacket(p) => PacketKeepsCredit(cfg, c, p);
    case OnWrite(w) => assert ApplyWrite(c, w).credit == c.credit;
    case OnCall(a) => CallKeepsCredit(cfg, c, a);
    case ExpiryFailed =>
  }

  lemma {:induction false} PacketDrops(cfg: Config, c: Conn, p: PacketStep)
    requires Wf(c) && PacketLegal(c, p)
    ensures var c' := ApplyPacket(cfg, c, p);
            c'.credit.dropped == c.credit.dropped || c'.life.wantClose || c'.life.closed
  {
    match p
    case RecvStreamData(id, len, rv, body, kept) =>
    case StreamOpen(_, _) =>
    case StreamClose(_, _, _) =>
    case DiscardData(_, _) =>
    case DeferredConsume(_, _) =>
    case _ => QuietPacketCredit(cfg, c, p);
  }

  lemma {:induction false} StepKeepsLoss(cfg: Config, c: Conn, step: Step)
    requires LossInv(c) && CloseInv(c.life) && Wf(c) && Legal(c, step)
    ensures LossInv(Apply(cfg, c, step))
  {
    StepAdvances(cfg, c, step);
    match step
    case OnPacket(p) => PacketDrops(cfg, c, p);
    case OnWrite(w) => assert ApplyWrite(c, w).credit == c.credit;
    case OnCall(a) =>
      if !a.Consume? {
        QuietCallCredit(c, a);
      }
    case ExpiryFailed =>
  }

  /** A step that leaves the reset bookkeeping alone. */
  ghost predicate SameBudget(c: Conn, c': Conn)
  {
    && c'.streams.Keys == c.streams.Keys
    && (forall id {:trigger SameMarks(c, c', id)} | id in c.streams :: SameMarks(c, c', id))
    && c'.credit.open == c.credit.open && c'.resetCount == c.resetCount
    && (c.life.wantClose || c.life.closed ==> c'.life.wantClose || c'.life.closed)
  }

  predicate SameMarks(c: Conn, c': Conn, id: int)
  {
    && (id in c.streams <==> id in c'.streams)
    && (id in c.streams ==>
          c'.streams[id].stopSent == c.streams[id].stopSent && c'.streams[id].peerReset == c.streams[id].peerReset)
  }

  lemma {:induction false} SameBudgetKeeps(cfg: Config, c: Conn, c': Conn)
    requires ResetInv(cfg, c) && SameBudget(c, c')
    ensures ResetInv(cfg, c')
  {
    forall id | id in c'.streams
      ensures OneMark(c', id)
    {
      assert SameMarks(c, c', id) && OneMark(c, id);
    }
    forall id | id in c'.credit.open
      ensures OpenTracked(c', id)
    {
      assert OpenTracked(c, id);
    }
  }

  lemma {:induction false} TxSameBudget(c: Conn, id: int, step: S.TxStep)
    requires Wf(c) && TxLegal(c, id, step)
    ensures SameBudget(c, Tx(c, id, step))
  {
    forall i | i in c.streams
      ensures SameMarks(c, Tx(c, id, step), i)
    {
    }
  }

  lemma {:induction false} AskedSameBudget(c: Conn, id: int, step: S.TxStep)
    requires Wf(c) && TxLegal(c, OfferedId(c, id), step)
    ensures SameBudget(c, Asked(c, id, step))
  {
    if MayOffer(c) {
      TxSameBudget(Call(c), id, step);
      SameBudgetStep(c, Call(c), Asked(c, id, step));
    } else {
      SameStreamsBudget(c, c);
    }
  }

  lemma {:induction false} ParkedSameBudget(c: Conn, id: int, step: S.TxStep)
    requires Wf(c) && TxLegal(c, OfferedId(c, id), step)
    ensures SameBudget(c, Parked(c, id, step))
  {
    if c.life.h3 && OfferedId(c, id) >= 0 {
      TxSameBudget(Call(c), OfferedId(c, id), step);
      SameBudgetStep(c, Call(c), Parked(c, id, step));
    } else {
      SameStreamsBudget(c, c);
    }
  }

  lemma {:induction false} TakenSameBudget(c: Conn, id: int, n: nat, fin: bool)
    requires Wf(c) && TakeLegal(c, id, n, fin)
    ensures SameBudget(c, Taken(c, id, n, fin))
  {
    var d := c.(life := TakenLife(c, id), sendLeft := c.sendLeft - n);
    TxSameBudget(d, OfferedId(c, id), S.Transmit(n, fin));
    SameBudgetStep(c, d, Taken(c, id, n, fin));
  }

  /** The reset mark of one stream changed. */
  lemma {:induction false} MarkKeepsReset(cfg: Config, c: Conn, c': Conn, id: int)
    requires ResetInv(cfg, c) && id in c.streams && c'.streams.Keys == c.streams.Keys
    requires OneMark(c', id) && forall i | i in c.streams && i != id :: c'.streams[i] == c.streams[i]
    requires c'.credit.open == c.credit.open && c'.resetCount == c.resetCount
    requires c.life.wantClose || c.life.closed ==> c'.life.wantClose || c'.life.closed
    ensures ResetInv(cfg, c')
  {
    forall i | i in c'.streams
      ensures OneMark(c', i)
    {
      assert i != id ==> OneMark(c, i);
    }
    forall i | i in c'.credit.open
      ensures OpenTracked(c', i)
    {
      assert OpenTracked(c, i);
    }
  }

  lemma {:induction false} OpenKeepsReset(cfg: Config, c: Conn, id: int, window: nat)
    requires ResetInv(cfg, c) && Wf(c)
    ensures ResetInv(cfg, OpenStream(c, id, window))
  {
    var c' := OpenStream(c, id, window);
    forall i | i in c'.streams
      ensures OneMark(c', i)
    {
      assert i in c.streams ==> OneMark(c, i);
    }
    forall i | i in c'.credit.open
      ensures OpenTracked(c', i)
    {
      assert i in c.credit.open ==> OpenTracked(c, i);
    }
  }

  lemma {:induction false} CloseKeepsReset(cfg: Config, c: Conn, id: int, appErrorSet: bool, known: bool)
    requires ResetInv(cfg, c) && Wf(c) && (IsRequest(id) ==> id in c.credit.open)
    ensures ResetInv(cfg, CloseStream(cfg, c, id, appErrorSet, known))
  {
    var c' := CloseStream(cfg, c, id, appErrorSet, known);
    forall i | i in c'.streams
      ensures OneMark(c', i)
    {
      assert OneMark(c, i);
    }
    forall i | i in c'.credit.open
      ensures OpenTracked(c', i)
    {
      assert OpenTracked(c, i);
    }
  }

  lemma {:induction false} ExtendSameBudget(c: Conn, id: int, n: nat, rv: int)
    requires Wf(c)
    ensures SameBudget(c, ExtendStream(c, id, n, rv))
  {
    if c.life.h3 && rv == 0 {
      TxSameBudget(Call(c), id, S.ExtendWindow(n));
      SameBudgetStep(c, Call(c), ExtendStream(c, id, n, rv));
    } else {
      var c' := ExtendStream(c, id, n, rv);
      forall i | i in c.streams
        ensures SameMarks(c, c', i)
      {
      }
    }
  }

  lemma {:induction false} SameBudgetStep(c: Conn, c1: Conn, c': Conn)
    requires c1.streams == c.streams && c1.credit.open == c.credit.open && c1.resetCount == c.resetCount
    requires c.life.wantClose || c.life.closed ==> c1.life.wantClose || c1.life.closed
    requires SameBudget(c1, c')
    ensures SameBudget(c, c')
  {
    forall i | i in c.streams
      ensures SameMarks(c, c', i)
    {
      assert SameMarks(c1, c', i);
    }
  }

  lemma {:induction false} SameStreamsBudget(c: Conn, c': Conn)
    requires c'.streams == c.streams && c'.credit.open == c.credit.open && c'.resetCount == c.resetCount
    requires c.life.wantClose || c.life.closed ==> c'.life.wantClose || c'.life.closed
    ensures SameBudget(c, c')
  {
    forall i | i in c.streams
      ensures SameMarks(c, c', i)
    {
    }
  }

  lemma {:induction false} QuietPacketBudget(cfg: Config, c: Conn, p: PacketStep)
    requires Wf(c) && PacketLegal(c, p)
    requires !p.StreamOpen? && !p.StreamClose? && !p.StreamReset? && !p.AckedStreamData? && !p.ExtendMaxStreamData?
             && !p.WriteSideShut?
    ensures SameBudget(c, ApplyPacket(cfg, c, p))
  {
    SameStreamsBudget(c, ApplyPacket(cfg, c, p));
  }

  lemma {:induction false} PacketKeepsReset(cfg: Config, c: Conn, p: PacketStep)
    requires ResetInv(cfg, c) && Wf(c) && PacketLegal(c, p)
    ensures ResetInv(cfg, ApplyPacket(cfg, c, p))
  {
    var c' := ApplyPacket(cfg, c, p);
    match p
    case StreamOpen(id, window) => OpenKeepsReset(cfg, c, id, window);
    case StreamClose(id, appErrorSet, known) => CloseKeepsReset(cfg, c, id, appErrorSet, known);
    case StreamReset(id) =>
      if id in c.streams && !c.streams[id].stopSent {
        MarkKeepsReset(cfg, c, c', id);
      }
    case AckedStreamData(id, n) =>
      if c.life.h3 {
        TxSameBudget(Call(c), id, S.Acknowledge(n));
        SameBudgetStep(c, Call(c), c');
        SameBudgetKeeps(cfg, c, c');
      }
    case ExtendMaxStreamData(id, n, rv) =>
      ExtendSameBudget(c, id, n, rv);
      SameBudgetKeeps(cfg, c, c');
    case WriteSideShut(id) =>
      TxSameBudget(c, id, S.ShutWrite);
      SameBudgetKeeps(cfg, c, c');
    case _ =>
      QuietPacketBudget(cfg, c, p);
      SameBudgetKeeps(cfg, c, c');
  }

  lemma {:induction false} WriteSameBudget(c: Conn, w: WriteStep)
    requires Wf(c) && WriteLegal(c, w)
    ensures SameBudget(c, ApplyWrite(c, w))
  {
    match w
    case ReadBody(id) => AskedSameBudget(c, id, S.ReadBody);
    case Frame(id, n) => AskedSameBudget(c, id, S.Frame(n));
    case Blocked(id) => ParkedSameBudget(c, id, S.RefuseBlocked);
    case Shut(id) => ParkedSameBudget(c, id, S.RefuseShut);
    case More(id, n, fin) => TakenSameBudget(c, id, n, fin);
    case Packet(id, n, fin, _) =>
      TakenSameBudget(c, id, n, fin);
      var t := Taken(c, id, n, fin);
      SameBudgetThen(c, t, ApplyWrite(c, w));
    case _ => QuietWriteBudget(c, w);
  }

  lemma {:induction false} SameBudgetThen(c: Conn, c1: Conn, c': Conn)
    requires SameBudget(c, c1)
    requires c'.streams == c1.streams && c'.credit.open == c1.credit.open && c'.resetCount == c1.resetCount
    requires c1.life.wantClose || c1.life.closed ==> c'.life.wantClose || c'.life.closed
    ensures SameBudget(c, c')
  {
    forall i | i in c.streams
      ensures SameMarks(c, c', i)
    {
      assert SameMarks(c, c1, i);
    }
  }

  lemma {:induction false} QuietWriteBudget(c: Conn, w: WriteStep)
    requires Wf(c) && WriteLegal(c, w)
    requires w.Start? || w.H3Broke? || w.NewCid? || w.Draining? || w.Fatal? || w.Nothing?
    ensures SameBudget(c, ApplyWrite(c, w))
  {
    SameStreamsBudget(c, ApplyWrite(c, w));
  }

  lemma {:induction false} StopKeepsReset(cfg: Config, c: Conn, id: int, h3Rv: int, quicRv: int)
    requires ResetInv(cfg, c) && Wf(c)
    ensures ResetInv(cfg, StopReading(c, id, h3Rv, quicRv))
  {
    StopShape(c, id, h3Rv, quicRv);
    StoppedKeepsReset(cfg, c, StopReading(c, id, h3Rv, quicRv), id);
  }

  /** What stopping a stream can change: the stream's mark, or how the connection ends. */
  predicate Stopped(c: Conn, c': Conn, id: int)
  {
    && c'.credit == c.credit && c'.resetCount == c.resetCount
    && (c.life.wantClose || c.life.closed ==> c'.life.wantClose || c'.life.closed)
    && (Live(c'.life) ==> Live(c.life) && (c.life.h3 ==> c'.life.h3))
    && (|| c'.streams == c.streams
        || (&& id in c.streams && !c.streams[id].peerReset
            && c'.streams == c.streams[id := c.streams[id].(stopSent := true)]))
  }

  lemma {:induction false} StopShape(c: Conn, id: int, h3Rv: int, quicRv: int)
    requires Wf(c)
    ensures Stopped(c, StopReading(c, id, h3Rv, quicRv), id)
  {
    if id in c.streams && !c.streams[id].stopSent && !c.streams[id].peerReset && !(c.life.h3 && h3Rv != 0) {
      var d := if c.life.h3 then Call(c) else c;
      assert d.streams == c.streams;
    }
  }

  lemma {:induction false} StoppedKeepsReset(cfg: Config, c: Conn, c': Conn, id: int)
    requires ResetInv(cfg, c) && Stopped(c, c', id)
    ensures ResetInv(cfg, c')
  {
    if c'.streams == c.streams {
      SameStreamsBudget(c, c');
      SameBudgetKeeps(cfg, c, c');
    } else {
      MarkKeepsReset(cfg, c, c', id);
    }
  }

  lemma {:induction false} SendCallBudget(c: Conn, id: int, call: S.TxStep)
    requires Wf(c) && IsAppCall(call)
    ensures SameBudget(c, SendCall(c, id, call))
  {
    if id !in c.streams || !c.life.h3 || !ReachesH3(c.streams[id].tx, call) {
      SameStreamsBudget(c, c);
    } else {
      TxSameBudget(Call(c), id, call);
      SameBudgetStep(c, Call(c), SendCall(c, id, call));
    }
  }

  lemma {:induction false} CallKeepsReset(cfg: Config, c: Conn, a: AppStep)
    requires ResetInv(cfg, c) && Wf(c) && AppLegal(c, a)
    ensures ResetInv(cfg, ApplyCall(c, a))
  {
    var c' := ApplyCall(c, a);
    match a
    case StopSending(id, h3Rv, quicRv) => StopKeepsReset(cfg, c, id, h3Rv, quicRv);
    case Send(id, call) =>
      SendCallBudget(c, id, call);
      SameBudgetKeeps(cfg, c, c');
    case ResetStream(id) =>
      TxSameBudget(c, id, S.ShutWrite);
      SameBudgetKeeps(cfg, c, c');
    case _ =>
      SameStreamsBudget(c, c');
      SameBudgetKeeps(cfg, c, c');
  }

  lemma {:induction false} StepKeepsReset(cfg: Config, c: Conn, step: Step)
    requires ResetInv(cfg, c) && Wf(c) && Legal(c, step)
    ensures ResetInv(cfg, Apply(cfg, c, step))
  {
    match step
    case OnPacket(p) => PacketKeepsReset(cfg, c, p);
    case OnWrite(w) =>
      WriteSameBudget(c, w);
      SameBudgetKeeps(cfg, c, ApplyWrite(c, w));
    case OnCall(a) => CallKeepsReset(cfg, c, a);
    case ExpiryFailed =>
      SameStreamsBudget(c, Apply(cfg, c, step));
      SameBudgetKeeps(cfg, c, Apply(cfg, c, step));
  }

  lemma {:induction false} StepKeeps(cfg: Config, c: Conn, step: Step)
    requires Inv(cfg, c) && Wf(c) && Legal(c, step)
    ensures Inv(cfg, Apply(cfg, c, step))
  {
    StepKeepsCredit(cfg, c, step);
    StepKeepsLoss(cfg, c, step);
    StepKeepsReset(cfg, c, step);
    StepKeepsClose(cfg, c, step);
    match step
    case OnPacket(p) => PacketKeepsSend(cfg, c, p);
    case OnWrite(w) => WriteKeepsSend(c, w);
    case OnCall(a) => CallKeepsSend(c, a);
    case ExpiryFailed =>
      SameStreamsSending(c, Apply(cfg, c, step));
      SameSendingKeeps(c, Apply(cfg, c, step));
  }

  lemma {:induction false} RunKeeps(cfg: Config, c: Conn, steps: seq<Step>)
    requires Inv(cfg, c) && Wf(c) && Run(cfg, c, steps).Some?
    ensures Inv(cfg, Run(cfg, c, steps).value)
    decreases |steps|
  {
    if steps != [] {
      StepKeeps(cfg, c, steps[0]);
      RunKeeps(cfg, Apply(cfg, c, steps[0]), steps[1..]);
    }
  }

  /** An error from nghttp3 is terminal: after any run, once it was reported nghttp3 was
      neither called nor recreated, its connection is gone and the close is on its way. */
  lemma {:induction false} H3ErrorIsTerminal(cfg: Config, adm: Admission, sendLeft: nat, steps: seq<Step>)
    requires Run(cfg, Accept(cfg, adm, sendLeft), steps).Some?
    ensures var l := Run(cfg, Accept(cfg, adm, sendLeft), steps).value.life;
            && SilentAfterFail(l.trace)
            && forall e | e in l.trace && e.H3Fail? :: !l.h3 && (l.wantClose || l.closed)
  {
    AcceptInv(cfg, adm, sendLeft);
    RunKeeps(cfg, Accept(cfg, adm, sendLeft), steps);
    var l := Run(cfg, Accept(cfg, adm, sendLeft), steps).value.life;
    InOrderMeans(l.trace);
    forall e | e in l.trace && e.H3Fail?
      ensures !l.h3 && (l.wantClose || l.closed)
    {
      assert Explained(l, e);
    }
  }

  /** The close packet: at most one, nothing after it, and it carries the first abrupt
      cause when there is one and the graceful code otherwise. */
  lemma {:induction false} ClosePacketIsLastAndCarriesFirstCause(cfg: Config, adm: Admission, sendLeft: nat,
                                                                 steps: seq<Step>)
    requires Run(cfg, Accept(cfg, adm, sendLeft), steps).Some?
    ensures var t := Run(cfg, Accept(cfg, adm, sendLeft), steps).value.life.trace;
            && SilentAfterClose(t) && OneAbruptCause(t)
            && forall e | e in t && e.ClosePacket? ::
                 if exists f :: f in t && f.Abrupt? then Abrupt(e.err) in t else Graceful(e.err) in t
  {
    AcceptInv(cfg, adm, sendLeft);
    RunKeeps(cfg, Accept(cfg, adm, sendLeft), steps);
    var l := Run(cfg, Accept(cfg, adm, sendLeft), steps).value.life;
    InOrderMeans(l.trace);
    forall e | e in l.trace && e.ClosePacket?
      ensures if exists f :: f in l.trace && f.Abrupt? then Abrupt(e.err) in l.trace else Graceful(e.err) in l.trace
    {
      assert Explained(l, e);
      if f :| f in l.trace && f.Abrupt? {
        assert Explained(l, f);
      }
    }
  }

  /** The close flags only rise, the application's context is only dropped, the record
      only grows, and the close code is fixed once an abrupt close is pending or the
      connection is closed. */
  ghost predicate Advances(l: Life, l': Life)
  {
    && (l.closed ==> l'.closed) && (l.draining ==> l'.draining)
    && (l.wantClose ==> l'.wantClose) && (l.wantGraceful ==> l'.wantGraceful)
    && (l'.hasUd ==> l.hasUd)
    && (l.wantClose || l.closed ==> l'.ccerr == l.ccerr)
    && l.trace <= l'.trace
  }

  lemma {:induction false} StepAdvances(cfg: Config, c: Conn, step: Step)
    requires CloseInv(c.life) && Wf(c) && Legal(c, step)
    ensures Advances(c.life, Apply(cfg, c, step).life)
  {
    match step
    case OnPacket(p) => PacketAdvances(cfg, c, p);
    case OnWrite(w) => WriteAdvances(c, w);
    case OnCall(a) => CallAdvances(c, a);
    case ExpiryFailed =>
  }

  lemma {:induction false} CallH3Advances(l: Life)
    ensures Advances(l, CallH3(l))
  {
  }

  lemma {:induction false} FailAdvances(l: Life, rv: int)
    ensures Advances(l, FailConn(CallH3(l), rv))
  {
    CallH3Advances(l);
    assert Advances(CallH3(l), FailConn(CallH3(l), rv));
  }

  lemma {:induction false} WantCloseAdvances(l: Life, err: CloseError)
    ensures Advances(l, WantCloseUnlessEnding(l, err)) && Advances(l, WantCloseUnlessEnding(CallH3(l), err))
  {
    CallH3Advances(l);
    assert Advances(CallH3(l), WantCloseUnlessEnding(CallH3(l), err));
  }

  lemma {:induction false} EndPacketAdvances(l: Life, r: ReadRv)
    requires !l.closed
    ensures Advances(l, EndPacket(l, r))
  {
  }

  lemma {:induction false} HandshakeAdvances(l: Life, setup: Setup)
    ensures Advances(l, CompleteHandshake(l, setup))
  {
  }

  lemma {:induction false} TakenAdvances(c: Conn, id: int)
    ensures var l := TakenLife(c, id);
            Advances(c.life, l) && Advances(c.life, Log(l, Datagram))
              && Advances(c.life, Log(l, Datagram).(phase := Idle))
  {
    CallH3Advances(c.life);
  }

  lemma {:induction false} PacketAdvances(cfg: Config, c: Conn, p: PacketStep)
    requires (c.life.closed ==> c.life.phase == Idle) && Wf(c) && PacketLegal(c, p)
    ensures Advances(c.life, ApplyPacket(cfg, c, p).life)
  {
    match p
    case HandshakeCompleted(setup) => HandshakeAdvances(c.life, setup);
    case RecvStreamData(_, _, rv, _, _) =>
      CallH3Advances(c.life);
      FailAdvances(c.life, rv);
    case StreamClose(_, _, _) =>
      CallH3Advances(c.life);
      WantCloseAdvances(c.life, AppError(H3_EXCESSIVE_LOAD));
    case Done(r) => EndPacketAdvances(c.life, r);
    case AckedStreamData(_, _) => StreamPacketAdvances(cfg, c, p);
    case ExtendMaxStreamData(_, _, _) => StreamPacketAdvances(cfg, c, p);
    case WriteSideShut(_) => StreamPacketAdvances(cfg, c, p);
    case _ => QuietPacketAdvances(cfg, c, p);
  }

  lemma {:induction false} StreamPacketAdvances(cfg: Config, c: Conn, p: PacketStep)
    requires Wf(c) && PacketLegal(c, p) && (p.AckedStreamData? || p.ExtendMaxStreamData? || p.WriteSideShut?)
    ensures Advances(c.life, ApplyPacket(cfg, c, p).life)
  {
    CallH3Advances(c.life);
    var l := ApplyPacket(cfg, c, p).life;
    assert l == c.life || l == CallH3(c.life) || l == CallH3(c.life).(phase := Failing);
  }

  lemma {:induction false} QuietPacketAdvances(cfg: Config, c: Conn, p: PacketStep)
    requires Wf(c) && PacketLegal(c, p)
    requires || p.Begin? || p.StreamOpen? || p.DiscardData? || p.DeferredConsume? || p.StreamReset?
             || p.ExtendMaxData? || p.CidCallback?
    ensures Advances(c.life, ApplyPacket(cfg, c, p).life)
  {
    CallH3Advances(c.life);
    var l := ApplyPacket(cfg, c, p).life;
    assert l == CallH3(c.life) || l == c.life.(phase := l.phase);
  }

  lemma {:induction false} WriteAdvances(c: Conn, w: WriteStep)
    requires (c.life.closed ==> c.life.phase == Idle) && Wf(c) && WriteLegal(c, w)
    ensures Advances(c.life, ApplyWrite(c, w).life)
  {
    match w
    case ReadBody(id) => AskedAdvances(c, id, S.ReadBody);
    case Frame(id, n) => AskedAdvances(c, id, S.Frame(n));
    case More(id, n, fin) =>
      TakeLife(c, id, n, fin);
      TakenAdvances(c, id);
    case Blocked(id) =>
      OfferLife(c, id, S.RefuseBlocked);
      TakenAdvances(c, id);
    case Shut(id) =>
      OfferLife(c, id, S.RefuseShut);
      TakenAdvances(c, id);
    case Packet(id, n, fin, sendOk) =>
      TakeLife(c, id, n, fin);
      TakenAdvances(c, id);
    case _ => QuietWriteAdvances(c, w);
  }

  lemma {:induction false} AskedAdvances(c: Conn, id: int, step: S.TxStep)
    requires Wf(c) && TxLegal(c, OfferedId(c, id), step)
    ensures Advances(c.life, Asked(c, id, step).life)
  {
    OfferLife(c, id, step);
    CallH3Advances(c.life);
  }

  lemma {:induction false} QuietWriteAdvances(c: Conn, w: WriteStep)
    requires (c.life.closed ==> c.life.phase == Idle) && Wf(c) && WriteLegal(c, w)
    requires w.Start? || w.H3Broke? || w.NewCid? || w.Draining? || w.Fatal? || w.Nothing?
    ensures Advances(c.life, ApplyWrite(c, w).life)
  {
    if w.H3Broke? {
      FailAdvances(c.life, w.rv);
      var f := FailConn(CallH3(c.life), w.rv);
      assert Advances(f, SendClose(f, w.emitted));
    }
  }

  lemma {:induction false} StopAdvances(c: Conn, id: int, h3Rv: int, quicRv: int)
    requires Wf(c)
    ensures Advances(c.life, StopReading(c, id, h3Rv, quicRv).life)
  {
    CallH3Advances(c.life);
    FailAdvances(c.life, h3Rv);
    WantCloseAdvances(c.life, LibError(quicRv));
  }

  lemma {:induction false} CallAdvances(c: Conn, a: AppStep)
    requires Wf(c) && AppLegal(c, a)
    ensures Advances(c.life, ApplyCall(c, a).life)
  {
    CallH3Advances(c.life);
    match a
    case StopSending(id, h3Rv, quicRv) => StopAdvances(c, id, h3Rv, quicRv);
    case CloseAbrupt(code) => WantCloseAdvances(c.life.(hasUd := false), AppError(code));
    case _ =>
  }

  lemma {:induction false} CloseFlagsAreMonotone(cfg: Config, c: Conn, steps: seq<Step>)
    requires Inv(cfg, c) && Wf(c) && Run(cfg, c, steps).Some?
    ensures Advances(c.life, Run(cfg, c, steps).value.life)
    decreases |steps|
  {
    if steps != [] {
      StepAdvances(cfg, c, steps[0]);
      StepKeeps(cfg, c, steps[0]);
      CloseFlagsAreMonotone(cfg, Apply(cfg, c, steps[0]), steps[1..]);
    }
  }

  /** Credit is conserved over every run: the peer's usable window is the initial one
      less what is still held, so unread data and usable window both stay within the
      initial window, on the connection and on every stream; nothing is dropped while
      the connection lives, except what came before HTTP/3 was set up; and the open
      request streams stay within the initial limit. */
  lemma {:induction false} CreditIsConserved(cfg: Config, adm: Admission, sendLeft: nat, steps: seq<Step>)
    requires Run(cfg, Accept(cfg, adm, sendLeft), steps).Some?
    ensures var c := Run(cfg, Accept(cfg, adm, sendLeft), steps).value;
            var k := c.credit;
            && k.maxData == InitialMaxData(cfg) + k.credited
            && k.maxData - k.received == InitialMaxData(cfg) - (k.appHeld + k.deferred + k.early + k.dropped)
            && (Live(c.life) ==> k.dropped == 0)
            && 0 <= k.received - k.credited <= InitialMaxData(cfg)
            && k.maxBidi == InitialMaxStreams(cfg) + k.finished
            && |k.open| == k.started - k.finished <= InitialMaxStreams(cfg)
            && forall id | id in k.flows ::
                 var first := if id % 4 < 2 then InitialBidiWindow(cfg) else UNI_WINDOW;
                 && k.flows[id].max == first + k.flows[id].credited
                 && 0 <= k.flows[id].received - k.flows[id].credited <= first
  {
    AcceptInv(cfg, adm, sendLeft);
    RunKeeps(cfg, Accept(cfg, adm, sendLeft), steps);
    var k := Run(cfg, Accept(cfg, adm, sendLeft), steps).value.credit;
    forall id | id in k.flows
      ensures var first := if id % 4 < 2 then InitialBidiWindow(cfg) else UNI_WINDOW;
              && k.flows[id].max == first + k.flows[id].credited
              && 0 <= k.flows[id].received - k.flows[id].credited <= first
    {
      assert FlowInv(k, id);
    }
  }

  /** No datagram of the run is given to ngtcp2: each one offered leaves the connection
      as it is. */
  ghost predicate NoneFed(cfg: Config, c: Conn, steps: seq<Step>)
    requires Wf(c)
    decreases |steps|
  {
    steps != [] && Legal(c, steps[0]) ==>
      && (steps[0] == OnPacket(Begin) ==> Apply(cfg, c, steps[0]) == c)
      && NoneFed(cfg, Apply(cfg, c, steps[0]), steps[1..])
  }

  /** Once the reset count is past the budget no further datagram is fed to the
      connection, whatever happens next. */
  lemma {:induction false} NoDatagramPastBudget(cfg: Config, c: Conn, steps: seq<Step>)
    requires Inv(cfg, c) && Wf(c) && Run(cfg, c, steps).Some?
    requires cfg.maxResetStreams > 0 && c.resetCount > cfg.maxResetStreams
    ensures NoneFed(cfg, c, steps)
  {
    NoDatagramWhileEnding(cfg, c, steps);
  }

  lemma {:induction false} NoDatagramWhileEnding(cfg: Config, c: Conn, steps: seq<Step>)
    requires Inv(cfg, c) && Wf(c) && Run(cfg, c, steps).Some?
    requires c.life.wantClose || c.life.closed
    ensures NoneFed(cfg, c, steps)
    decreases |steps|
  {
    if steps != [] {
      StepAdvances(cfg, c, steps[0]);
      StepKeeps(cfg, c, steps[0]);
      NoDatagramWhileEnding(cfg, Apply(cfg, c, steps[0]), steps[1..]);
    }
  }

  // ---- who abandoned the request first --------------------------------------

  /** What happened to a stream first since it opened: nothing yet, the client's reset,
      or our STOP_SENDING. */
  datatype Mark = Unmarked | ClientReset | WeStopped

  function MarkAfter(c: Conn, m: Mark, id: int, step: Step): Mark
  {
    if step.OnPacket? && step.p.StreamOpen? && step.p.id == id && IsRequest(id) then Unmarked
    else if m != Unmarked || id !in c.streams then m
    else if step == OnPacket(StreamReset(id)) then ClientReset
    else if && step.OnCall? && step.a.StopSending? && step.a.id == id && step.a.quicRv == 0
            && (c.life.h3 ==> step.a.h3Rv == 0)
    then WeStopped
    else m
  }

  function MarkOf(cfg: Config, c: Conn, m: Mark, id: int, steps: seq<Step>): Mark
    requires Wf(c)
    decreases |steps|
  {
    if steps == [] || !Legal(c, steps[0]) then m
    else MarkOf(cfg, Apply(cfg, c, steps[0]), MarkAfter(c, m, id, steps[0]), id, steps[1..])
  }

  /** The flags the shim keeps say exactly which came first. */
  predicate MarkAgrees(c: Conn, id: int, m: Mark)
  {
    id in c.streams ==> (c.streams[id].stopSent <==> m == WeStopped) && (c.streams[id].peerReset <==> m == ClientReset)
  }

  lemma {:induction false} TxKeepsMark(c: Conn, id: int, step: S.TxStep, m: Mark, other: int)
    requires Wf(c) && TxLegal(c, id, step) && MarkAgrees(c, other, m)
    ensures MarkAgrees(Tx(c, id, step), other, m)
  {
  }

  lemma {:induction false} MarkPacketAgrees(cfg: Config, c: Conn, m: Mark, id: int, p: PacketStep)
    requires Wf(c) && PacketLegal(c, p) && MarkAgrees(c, id, m)
    ensures MarkAgrees(ApplyPacket(cfg, c, p), id, MarkAfter(c, m, id, OnPacket(p)))
  {
  }

  lemma {:induction false} MarkCallAgrees(c: Conn, m: Mark, id: int, a: AppStep)
    requires Wf(c) && AppLegal(c, a) && MarkAgrees(c, id, m)
    ensures MarkAgrees(ApplyCall(c, a), id, MarkAfter(c, m, id, OnCall(a)))
  {
    if a.Send? {
      TxKeepsMark(Call(c), a.id, a.call, m, id);
    }
  }

  lemma {:induction false} MarkStepAgrees(cfg: Config, c: Conn, m: Mark, id: int, step: Step)
    requires Wf(c) && Legal(c, step) && MarkAgrees(c, id, m)
    ensures MarkAgrees(Apply(cfg, c, step), id, MarkAfter(c, m, id, step))
  {
    match step
    case OnPacket(p) => MarkPacketAgrees(cfg, c, m, id, p);
    case OnWrite(w) =>
      WriteSameBudget(c, w);
      assert id in c.streams ==> SameMarks(c, ApplyWrite(c, w), id);
    case OnCall(a) => MarkCallAgrees(c, m, id, a);
    case ExpiryFailed =>
  }

  lemma {:induction false} MarkRunAgrees(cfg: Config, c: Conn, m: Mark, id: int, steps: seq<Step>)
    requires Wf(c) && MarkAgrees(c, id, m) && Run(cfg, c, steps).Some?
    ensures MarkAgrees(Run(cfg, c, steps).value, id, MarkOf(cfg, c, m, id, steps))
    decreases |steps|
  {
    if steps != [] {
      MarkStepAgrees(cfg, c, m, id, steps[0]);
      MarkRunAgrees(cfg, Apply(cfg, c, steps[0]), MarkAfter(c, m, id, steps[0]), id, steps[1..]);
    }
  }

  /** With a budget configured, a request stream that closes with an application error
      is charged unless our STOP_SENDING came before any reset by the client: a client
      that abandons the request first is always charged, and stopping it afterwards
      does not undo that. */
  lemma {:induction false} ChargedUnlessWeStoppedFirst(cfg: Config, adm: Admission, sendLeft: nat, steps: seq<Step>,
                                                       id: int, known: bool)
    requires cfg.maxResetStreams > 0 && IsRequest(id)
    requires Run(cfg, Accept(cfg, adm, sendLeft), steps).Some?
    requires Legal(Run(cfg, Accept(cfg, adm, sendLeft), steps).value, OnPacket(StreamClose(id, true, known)))
    ensures var start := Accept(cfg, adm, sendLeft);
            var c := Run(cfg, start, steps).value;
            var charge := if MarkOf(cfg, start, Unmarked, id, steps) == WeStopped then 0 else 1;
            Apply(cfg, c, OnPacket(StreamClose(id, true, known))).resetCount == c.resetCount + charge
  {
    var start := Accept(cfg, adm, sendLeft);
    AcceptInv(cfg, adm, sendLeft);
    RunKeeps(cfg, start, steps);
    MarkRunAgrees(cfg, start, Unmarked, id, steps);
    assert OpenTracked(Run(cfg, start, steps).value, id);
  }

  /** What a step charges, given who abandoned each stream first. */
  function Charge(cfg: Config, marks: int -> Mark, step: Step): nat
  {
    if && cfg.maxResetStreams > 0 && step.OnPacket? && step.p.StreamClose?
       && IsRequest(step.p.id) && step.p.appErrorSet && marks(step.p.id) != WeStopped
    then 1 else 0
  }

  /** The request-stream closes with an application error, over a run, of streams we
      had not stopped first. */
  function Charges(cfg: Config, c: Conn, marks: int -> Mark, steps: seq<Step>): nat
    requires Wf(c)
    decreases |steps|
  {
    if steps == [] || !Legal(c, steps[0]) then 0
    else
      Charge(cfg, marks, steps[0])
      + Charges(cfg, Apply(cfg, c, steps[0]), id => MarkAfter(c, marks(id), id, steps[0]), steps[1..])
  }

  lemma {:induction false} PacketCharges(cfg: Config, c: Conn, p: PacketStep)
    requires Wf(c) && PacketLegal(c, p) && !p.StreamClose?
    ensures ApplyPacket(cfg, c, p).resetCount == c.resetCount
  {
  }

  lemma {:induction false} CallCharges(c: Conn, a: AppStep)
    requires Wf(c) && AppLegal(c, a)
    ensures ApplyCall(c, a).resetCount == c.resetCount
  {
  }

  lemma {:induction false} StepCharges(cfg: Config, c: Conn, marks: int -> Mark, step: Step)
    requires ResetInv(cfg, c) && Wf(c) && Legal(c, step)
    requires step.OnPacket? && step.p.StreamClose? ==> MarkAgrees(c, step.p.id, marks(step.p.id))
    ensures Apply(cfg, c, step).resetCount == c.resetCount + Charge(cfg, marks, step)
  {
    match step
    case OnPacket(p) =>
      if p.StreamClose? {
        assert p.id in c.credit.open ==> OpenTracked(c, p.id);
      } else {
        PacketCharges(cfg, c, p);
      }
    case OnWrite(w) => WriteSameBudget(c, w);
    case OnCall(a) => CallCharges(c, a);
    case ExpiryFailed =>
  }

  lemma {:induction false} RunCharges(cfg: Config, c: Conn, marks: int -> Mark, steps: seq<Step>)
    requires Inv(cfg, c) && Wf(c) && Run(cfg, c, steps).Some?
    requires forall id :: MarkAgrees(c, id, marks(id))
    ensures Run(cfg, c, steps).value.resetCount == c.resetCount + Charges(cfg, c, marks, steps)
    decreases |steps|
  {
    if steps != [] {
      var next: int -> Mark := id => MarkAfter(c, marks(id), id, steps[0]);
      StepCharges(cfg, c, marks, steps[0]);
      StepKeeps(cfg, c, steps[0]);
      forall id ensures MarkAgrees(Apply(cfg, c, steps[0]), id, next(id)) {
        MarkStepAgrees(cfg, c, marks(id), id, steps[0]);
      }
      RunCharges(cfg, Apply(cfg, c, steps[0]), next, steps[1..]);
    }
  }

  /** The reset count is exact over every run: it is the number of request streams
      closed with an application error that we had not stopped first. No stream is
      both stopped by us and marked as reset by the client. */
  lemma {:induction false} ResetCountIsExact(cfg: Config, adm: Admission, sendLeft: nat, steps: seq<Step>)
    requires Run(cfg, Accept(cfg, adm, sendLeft), steps).Some?
    ensures var start := Accept(cfg, adm, sendLeft);
            var c := Run(cfg, start, steps).value;
            && c.resetCount == Charges(cfg, start, _ => Unmarked, steps)
            && forall id | id in c.streams :: !(c.streams[id].stopSent && c.streams[id].peerReset)
  {
    AcceptInv(cfg, adm, sendLeft);
    RunKeeps(cfg, Accept(cfg, adm, sendLeft), steps);
    RunCharges(cfg, Accept(cfg, adm, sendLeft), _ => Unmarked, steps);
    var c := Run(cfg, Accept(cfg, adm, sendLeft), steps).value;
    forall id | id in c.streams
      ensures !(c.streams[id].stopSent && c.streams[id].peerReset)
    {
      assert OneMark(c, id);
    }
  }

  // ---- no lost wake-up -----------------------------------------------------

  /** While HTTP/3 runs, every stream that has something to send and an open window is
      in nghttp3's schedule, so the next round of the write loop can offer it; and a
      stream is parked only for a reason whose wake-up is still to come. The exception
      is bytes appended after the end of the body was signalled. */
  lemma {:induction false} EveryReadyStreamIsOffered(cfg: Config, adm: Admission, sendLeft: nat, steps: seq<Step>,
                                                     id: int)
    requires Run(cfg, Accept(cfg, adm, sendLeft), steps).Some?
    requires var c := Run(cfg, Accept(cfg, adm, sendLeft), steps).value;
             Live(c.life) && id in c.streams
    ensures var t := Run(cfg, Accept(cfg, adm, sendLeft), steps).value.streams[id].tx;
            && (t.readBlocked ==> t.body.handed == t.body.end && !t.body.fin)
            && S.Justified(t.gate)
            && (S.Unsent(t) && t.gate.window > 0 && !t.gate.shut
              ==> S.Offered(t) || (S.Stranded(t) && t.outq == 0 && t.ended))
  {
    AcceptInv(cfg, adm, sendLeft);
    RunKeeps(cfg, Accept(cfg, adm, sendLeft), steps);
    var t := Run(cfg, Accept(cfg, adm, sendLeft), steps).value.streams[id].tx;
    assert SendOk(Run(cfg, Accept(cfg, adm, sendLeft), steps).value, id);
    if S.Unsent(t) && t.gate.window > 0 && !t.gate.shut {
      S.OfferedUnlessStranded(t);
    }
  }
}
