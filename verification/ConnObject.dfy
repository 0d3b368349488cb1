/** The connection object: fields updated in place by the callbacks, the write loop and
    the application's calls, each proved against the step it performs. */
module ConnObject {
  import opened Common
  import opened Connection
  import Engine
  import ER = EngineRuns
  import R = ConnectionRuns
  import S = StreamSend
  import B = ResponseBody

  class VqConn {
    ghost const id: nat
    var h3: bool
    var hasUd: bool
    var closed: bool
    var draining: bool
    var wantClose: bool
    var wantGraceful: bool
    var ccerr: CloseError
    var resetCount: nat
    var streams: map<int, Stream>
    var sendLeft: nat                // ngtcp2: connection send window left
    ghost var credit: Credit         // ngtcp2: receive limits it advertises
    ghost var phase: Phase
    ghost var trace: seq<Effect>

    ghost function Lifecycle(): Life
      reads this
    {
      Life(phase, h3, hasUd, closed, draining, wantClose, wantGraceful, ccerr, trace)
    }

    ghost function State(): Conn
      reads this
    {
      Conn(Lifecycle(), resetCount, streams, sendLeft, credit)
    }

    /** What every step keeps. */
    ghost predicate Valid(cfg: Config)
      reads this
    {
      Wf(State()) && R.Inv(cfg, State())
    }

    constructor (cfg: Config, ghost id: nat, adm: Admission, sendLeft: nat)
      ensures this.id == id && State() == Accept(cfg, adm, sendLeft) && Valid(cfg)
    {
      this.id := id;
      h3, hasUd, closed, draining := false, adm == Admitted, false, false;
      wantClose, wantGraceful, ccerr := adm == Rejected, false, Unset;
      resetCount, streams := 0, map[];
      this.sendLeft := sendLeft;
      credit := NewCredit(cfg);
      phase := Idle;
      trace := if adm == Rejected then [Abrupt(Unset)] else [];
      new;
      R.AcceptInv(cfg, adm, sendLeft);
    }

    // ---- shared pieces -----------------------------------------------------

    ghost method LogEffect(e: Effect)
      modifies this`trace
      ensures trace == old(trace) + [e]
    {
      trace := trace + [e];
    }

    /** Make a call into nghttp3, whose connection has to exist. */
    method CallNghttp3()
      requires h3
      modifies this`trace
      ensures State() == Call(old(State()))
    {
      LogEffect(H3Call);
    }

    method ScheduleClose(err: CloseError)
      modifies this
      ensures State() == old(State()).(life := WantCloseUnlessEnding(old(Lifecycle()), err))
    {
      if wantClose || closed {
        return;
      }
      ccerr := err;
      wantClose := true;
      LogEffect(Abrupt(err));
    }

    method Fail(rv: int)
      modifies this
      ensures State() == old(State()).(life := FailConn(old(Lifecycle()), rv))
    {
      if h3 {
        h3 := false;
        LogEffect(H3Fail(rv));
      }
      ScheduleClose(H3Error(rv));
    }

    method SendConnClose(emitted: bool)
      modifies this
      ensures State() == old(State()).(life := SendClose(old(Lifecycle()), emitted))
    {
      if emitted {
        LogEffect(ClosePacket(ccerr));
      }
      closed := true;
      phase := Idle;
    }

    // ---- callbacks ---------------------------------------------------------

    method OnHandshakeCompleted(setup: Setup) returns (ok: bool)
      requires phase == InPacket
      modifies this
      ensures State() == old(State()).(life := CompleteHandshake(old(Lifecycle()), setup))
      ensures ok <==> phase == InPacket
    {
      ok := true;
      if wantClose || closed {
        return;
      }
      if !h3 {
        if setup != SetupRefused {
          h3 := true;
          LogEffect(H3New);
        }
        ok := setup == SetupOk;
        phase := if ok then InPacket else Failing;
      }
    }

    method OnStreamOpen(sid: int, window: nat)
      requires Wf(State())
      modifies this
      ensures State() == OpenStream(old(State()), sid, window)
    {
      if sid % 4 == 0 {
        streams := streams[sid := Stream(S.NewTx(window), false, false)];
        credit := credit.(started := credit.started + 1, open := credit.open + {sid});
        if h3 {
          CallNghttp3();
        }
      }
    }

    method OnRecvStreamData(sid: int, len: nat, rv: int, ghost body: nat, ghost kept: nat) returns (ok: bool)
      requires phase == InPacket
      modifies this
      ensures State() == ReceiveData(old(State()), sid, len, rv, body, kept)
      ensures ok <==> phase == InPacket
    {
      credit := Arrive(credit, sid, len);
      if !h3 {
        credit := Lose(State(), credit, len);
        return true;
      }
      CallNghttp3();
      if rv < 0 {
        credit := Lose(State(), credit, len);
        Fail(rv);
        phase := Failing;
        return false;
      }
      credit := Extend(credit, sid, rv).(appHeld := credit.appHeld + body, deferred := credit.deferred + kept);
      return true;
    }

    method OnStreamClose(cfg: Config, sid: int, appErrorSet: bool, known: bool)
      requires Wf(State())
      modifies this
      ensures State() == CloseStream(cfg, old(State()), sid, appErrorSet, known)
    {
      var stopped := sid in streams && streams[sid].stopSent;
      if h3 {
        CallNghttp3();
        if known {
          streams := streams - {sid};
        }
      }
      if sid % 4 == 0 {
        credit := credit.(maxBidi := credit.maxBidi + 1, finished := credit.finished + 1, open := credit.open - {sid});
      }
      if cfg.maxResetStreams > 0 && sid % 4 == 0 && appErrorSet && !stopped {
        resetCount := resetCount + 1;
        if resetCount > cfg.maxResetStreams {
          ScheduleClose(AppError(H3_EXCESSIVE_LOAD));
        }
      }
    }

    method OnStreamReset(sid: int)
      requires Wf(State())
      modifies this`streams
      ensures State() == ResetByPeer(old(State()), sid)
    {
      if sid in streams && !streams[sid].stopSent {
        streams := streams[sid := streams[sid].(peerReset := true)];
      }
    }

    /** Hand a sending step to the stream, if the shim still tracks it. */
    method StreamStep(sid: int, step: S.TxStep)
      requires Wf(State()) && TxLegal(State(), sid, step)
      modifies this`streams
      ensures State() == Tx(old(State()), sid, step)
    {
      if sid in streams {
        streams := streams[sid := streams[sid].(tx := S.Apply(streams[sid].tx, step))];
      }
    }

    method OnExtendMaxStreamData(sid: int, n: nat, rv: int) returns (ok: bool)
      requires Wf(State()) && phase == InPacket
      modifies this
      ensures State() == ExtendStream(old(State()), sid, n, rv)
      ensures ok <==> phase == InPacket
    {
      ok := true;
      if h3 && rv == 0 {
        CallNghttp3();
        StreamStep(sid, S.ExtendWindow(n));
        return;
      }
      if sid in streams {
        streams := streams[sid := WiderWindow(streams[sid], n)];
      }
      if h3 {
        CallNghttp3();
        phase := Failing;
        ok := false;
      }
    }

    /** The result of ngtcp2_conn_read_pkt. */
    method EndOfPacket(r: ReadRv)
      requires !closed
      modifies this
      ensures State() == old(State()).(life := EndPacket(old(Lifecycle()), r))
    {
      phase := Idle;
      match r
      case ReadOk =>
      case ReadDraining => draining := true;
      case ReadDrop => closed := true;
      case ReadCrypto(alert) => ScheduleClose(TlsAlert(alert));
      case ReadOther(rv) => ScheduleClose(LibError(rv));
    }

    /** vq_engine_recv for this connection: is the datagram given to ngtcp2? */
    method BeginDatagram() returns (fed: bool)
      requires phase == Idle
      modifies this`phase
      ensures State() == old(State()).(life := BeginPacket(old(Lifecycle())))
      ensures fed <==> phase == InPacket
    {
      if wantClose || closed {
        return false;
      }
      phase := InPacket;
      return true;
    }

    /** Dispatch one callback of the datagram being parsed. */
    method Dispatch(cfg: Config, p: PacketStep)
      requires Wf(State()) && PacketLegal(State(), p) && (closed ==> phase == Idle)
      modifies this
      ensures State() == ApplyPacket(cfg, old(State()), p)
    {
      match p
      case Begin => var fed := BeginDatagram();
      case HandshakeCompleted(setup) => var ok := OnHandshakeCompleted(setup);
      case StreamOpen(sid, window) => OnStreamOpen(sid, window);
      case RecvStreamData(sid, len, rv, body, kept) => var ok := OnRecvStreamData(sid, len, rv, body, kept);
      case DiscardData(sid, len) => credit := ExtendConn(Arrive(credit, sid, len), len);
      case DeferredConsume(sid, n) => credit := Extend(credit.(deferred := credit.deferred - n), sid, n);
      case StreamClose(sid, appErrorSet, known) => OnStreamClose(cfg, sid, appErrorSet, known);
      case StreamReset(sid) => OnStreamReset(sid);
      case AckedStreamData(sid, n) =>
        if h3 {
          CallNghttp3();
          StreamStep(sid, S.Acknowledge(n));
        }
      case ExtendMaxStreamData(sid, n, rv) => var ok := OnExtendMaxStreamData(sid, n, rv);
      case ExtendMaxData(n) => sendLeft := sendLeft + n;
      case WriteSideShut(sid) => StreamStep(sid, S.ShutWrite);
      case CidCallback(ok) =>
        if !ok {
          phase := Failing;
        }
      case Done(r) => EndOfPacket(r);
    }

    method Callback(cfg: Config, p: PacketStep)
      requires Valid(cfg) && PacketLegal(State(), p)
      modifies this
      ensures Valid(cfg) && State() == ApplyPacket(cfg, old(State()), p)
    {
      R.StepKeeps(cfg, State(), OnPacket(p));
      Dispatch(cfg, p);
    }

    /** ngtcp2_conn_handle_expiry failed: the connection is dropped. */
    method Expire(ghost cfg: Config)
      requires Valid(cfg) && phase == Idle
      modifies this`closed
      ensures Valid(cfg) && State() == old(State()).(life := old(Lifecycle()).(closed := true))
    {
      R.StepKeeps(cfg, State(), ExpiryFailed);
      closed := true;
    }

    // ---- the application's calls --------------------------------------------

    /** vq_submit_response, vq_submit_head, vq_stream_write, vq_submit_trailers and
        vq_stream_finish: ignored without a tracked stream or without nghttp3. `backlog`
        is what a write reports: the bytes not yet handed out. */
    method SendOn(sid: int, call: S.TxStep) returns (backlog: int)
      requires Wf(State()) && IsAppCall(call)
      modifies this
      ensures State() == SendCall(old(State()), sid, call)
      ensures backlog == if call.WriteBody? && sid in streams && h3 then B.Backlog(streams[sid].tx.body) else 0
    {
      backlog := 0;
      if sid !in streams || !h3 {
        return;
      }
      if ReachesH3(streams[sid].tx, call) {
        CallNghttp3();
        StreamStep(sid, call);
      }
      if call.WriteBody? {
        backlog := B.Backlog(streams[sid].tx.body);
      }
    }

    /** 1: stopped; 0: nothing to do; otherwise the library's error. */
    method StopSendingOn(sid: int, h3Rv: int, quicRv: int) returns (rv: int)
      requires Wf(State())
      modifies this
      ensures State() == StopReading(old(State()), sid, h3Rv, quicRv)
      ensures rv == StopResult(old(State()), sid, h3Rv, quicRv)
    {
      if sid !in streams || streams[sid].stopSent || streams[sid].peerReset {
        return 0;
      }
      if h3 {
        CallNghttp3();
        if h3Rv != 0 {
          Fail(h3Rv);
          return h3Rv;
        }
      }
      if quicRv != 0 {
        ScheduleClose(LibError(quicRv));
        return quicRv;
      }
      streams := streams[sid := streams[sid].(stopSent := true)];
      return 1;
    }

    /** vq_conn_close. */
    method CloseHard(code: nat)
      modifies this
      ensures State() == old(State()).(life := CloseNow(old(Lifecycle()), code))
    {
      hasUd := false;
      ScheduleClose(AppError(code));
    }

    /** vq_conn_close_graceful. */
    method CloseGently(code: nat)
      modifies this
      ensures State() == old(State()).(life := CloseCleanly(old(Lifecycle()), code))
    {
      if wantClose || wantGraceful || closed {
        return;
      }
      ccerr := AppError(code);
      wantGraceful := true;
      LogEffect(Graceful(AppError(code)));
    }

    method Perform(a: AppStep)
      requires Wf(State()) && AppLegal(State(), a)
      modifies this
      ensures State() == ApplyCall(old(State()), a)
    {
      match a
      case Send(sid, call) => var backlog := SendOn(sid, call);
      case ResetStream(sid) => StreamStep(sid, S.ShutWrite);
      case StopSending(sid, h3Rv, quicRv) => var rv := StopSendingOn(sid, h3Rv, quicRv);
      case Consume(sid, n) => credit := Extend(credit.(appHeld := credit.appHeld - n), sid, n);
      case Goaway =>
        if h3 {
          CallNghttp3();
        }
      case CloseAbrupt(code) => CloseHard(code);
      case CloseGraceful(code) => CloseGently(code);
    }

    method AppCall(ghost cfg: Config, a: AppStep)
      requires Valid(cfg) && AppLegal(State(), a)
      modifies this
      ensures Valid(cfg) && State() == ApplyCall(old(State()), a)
    {
      R.StepKeeps(cfg, State(), OnCall(a));
      Perform(a);
    }

    // ---- the write loop ------------------------------------------------------

    /** Note `n` bytes of the offered stream taken by ngtcp2. */
    method NoteTaken(id: int, n: nat, fin: bool)
      requires Wf(State()) && TakeLegal(State(), id, n, fin)
      modifies this
      ensures State() == Taken(old(State()), id, n, fin)
    {
      var sid := if h3 && sendLeft > 0 then id else -1;
      sendLeft := sendLeft - n;
      if h3 && sid >= 0 {
        CallNghttp3();
      }
      StreamStep(sid, S.Transmit(n, fin));
    }

    /** nghttp3 is asked for the next stream to offer and acts on it. */
    method AskedStep(id: int, step: S.TxStep)
      requires Wf(State()) && TxLegal(State(), OfferedId(State(), id), step)
      modifies this
      ensures State() == Asked(old(State()), id, step)
    {
      if h3 && sendLeft > 0 {
        CallNghttp3();
        StreamStep(id, step);
      }
    }

    /** ngtcp2 refused the offered stream. */
    method Park(id: int, step: S.TxStep)
      requires Wf(State()) && TxLegal(State(), OfferedId(State(), id), step)
      modifies this
      ensures State() == Parked(old(State()), id, step)
    {
      var sid := if h3 && sendLeft > 0 then id else -1;
      if h3 && sid >= 0 {
        CallNghttp3();
        StreamStep(sid, step);
      }
    }

    method SendPacket(id: int, n: nat, fin: bool, sendOk: bool)
      requires Wf(State()) && phase == InWrite && WriteLegal(State(), Packet(id, n, fin, sendOk))
      modifies this
      ensures State() == ApplyWrite(old(State()), Packet(id, n, fin, sendOk))
      ensures sendOk <==> phase == InWrite
    {
      NoteTaken(id, n, fin);
      LogEffect(Datagram);
      if !sendOk {
        phase := Idle;
      }
    }

    /** One round of the loop; `again` says whether the loop goes on. */
    method Round(w: WriteStep) returns (again: bool)
      requires Wf(State()) && phase == InWrite && WriteLegal(State(), w)
      modifies this
      ensures State() == ApplyWrite(old(State()), w)
      ensures again <==> phase == InWrite
    {
      again := true;
      match w
      case ReadBody(sid) => AskedStep(sid, S.ReadBody);
      case Frame(sid, n) => AskedStep(sid, S.Frame(n));
      case H3Broke(rv, emitted) =>
        if h3 && sendLeft > 0 {
          CallNghttp3();
          Fail(rv);
          SendConnClose(emitted);
          again := false;
        }
      case More(sid, n, fin) => NoteTaken(sid, n, fin);
      case Blocked(sid) => Park(sid, S.RefuseBlocked);
      case Shut(sid) => Park(sid, S.RefuseShut);
      case Packet(sid, n, fin, sendOk) =>
        SendPacket(sid, n, fin, sendOk);
        again := sendOk;
      case NewCid =>
      case Draining =>
        draining := true;
        phase := Idle;
        again := false;
      case Fatal =>
        closed := true;
        phase := Idle;
        again := false;
      case Nothing(emitted) =>
        if wantGraceful && !closed {
          SendConnClose(emitted);
        }
        phase := Idle;
        again := false;
    }

    /** The loop itself, from round k of the script on. */
    method WriteRounds(s: Engine.WriteScript)
      requires Wf(State()) && phase == InWrite && Engine.Rounds(State(), s.rounds, 0).Some?
      modifies this
      ensures Some(State()) == Engine.Rounds(old(State()), s.rounds, 0)
    {
      var again, k := true, 0;
      while again
        invariant 0 <= k <= |s.rounds| && Wf(State())
        invariant again <==> phase == InWrite
        invariant Engine.Rounds(State(), s.rounds, k) == old(Engine.Rounds(State(), s.rounds, 0))
        decreases |s.rounds| - k
      {
        again := Round(s.rounds[k]);
        k := k + 1;
      }
    }

    /** writeConn: a pending close first, otherwise rounds until nothing is left. */
    method WriteConn(ghost cfg: Config, s: Engine.WriteScript)
      requires Valid(cfg) && Engine.Write(State(), s).Some?
      modifies this
      ensures Valid(cfg) && Some(State()) == Engine.Write(old(State()), s)
    {
      ER.WriteKeeps(cfg, State(), s);
      if closed {
        return;
      }
      if wantClose {
        SendConnClose(s.emitted);
        return;
      }
      phase := InWrite;
      WriteRounds(s);
    }
  }
}
