/** One HTTP/3 connection as the shim keeps it: the nullable nghttp3 connection, the
    close flags, the request streams, the reset budget and the receive credit, driven
    by the ngtcp2 callbacks, the write loop, the timers and the application's calls.

    ngtcp2 and nghttp3 are the environment: what they answer is an argument of the
    step, and `Legal` says which answers they can give. */
module Connection {
  import opened Common
  import S = StreamSend

  // ---- configuration -------------------------------------------------------

  /** Zero means "not configured" for every field. */
  datatype Config = Config(maxResetStreams: nat, maxConnections: nat, connRecvWindow: nat, streamRecvWindow: nat,
                           maxConcurrentStreams: nat)

  function InitialMaxData(cfg: Config): nat
  {
    if cfg.connRecvWindow != 0 then cfg.connRecvWindow else 4 * 1024 * 1024
  }

  /** Unidirectional streams keep a fixed window. */
  const UNI_WINDOW := 1024 * 1024

  function InitialBidiWindow(cfg: Config): nat
  {
    if cfg.streamRecvWindow != 0 then cfg.streamRecvWindow else 1024 * 1024
  }

  function InitialMaxStreams(cfg: Config): nat
  {
    if cfg.maxConcurrentStreams != 0 then cfg.maxConcurrentStreams else 100
  }

  const H3_EXCESSIVE_LOAD := 0x0107

  // ---- state ---------------------------------------------------------------

  /** What a CONNECTION_CLOSE carries: nothing set, the application code inferred from
      an nghttp3 error, an application code, a mapped transport error, a TLS alert. */
  datatype CloseError = Unset | H3Error(rv: int) | AppError(code: nat) | LibError(rv: int) | TlsAlert(alert: nat)

  /** What the outside world can observe, in order. */
  datatype Effect =
    | H3New                        // a fresh nghttp3 connection
    | H3Call                       // a call into the nghttp3 connection
    | H3Fail(rv: int)              // nghttp3 reported an error; its connection is deleted
    | Datagram                     // a packet handed to the socket
    | ClosePacket(err: CloseError) // the CONNECTION_CLOSE packet
    | Abrupt(err: CloseError)      // an abrupt close is scheduled for this cause
    | Graceful(err: CloseError)    // a graceful close is scheduled with this code

  datatype Stream = Stream(tx: S.Tx, stopSent: bool, peerReset: bool)

  /** Receive credit of one stream: the limit the peer was given, what it sent, and what
      was given back. */
  datatype Flow = Flow(max: nat, received: nat, credited: nat)

  /** Receive credit. Of the `received` bytes, `credited` were given back to the peer,
      `appHeld` wait in the application, `deferred` in nghttp3, `early` came before
      HTTP/3 was set up and `dropped` once the connection was ending; the last two are
      thrown away uncredited. flows: the streams data came on; bidi: the window a
      bidirectional stream starts with. */
  datatype Credit = Credit(maxData: nat, received: nat, credited: nat, appHeld: nat, deferred: nat, early: nat,
                           dropped: nat, bidi: nat, flows: map<int, Flow>,
                           maxBidi: nat, started: nat, finished: nat, open: set<int>)

  /** Idle between calls; InPacket while ngtcp2 parses a datagram; Failing once a
      callback has failed and ngtcp2 abandons it; InWrite inside the write loop. */
  datatype Phase = Idle | InPacket | Failing | InWrite

  /** The nullable nghttp3 connection, the application's context, the close flags and
      what was observed so far. */
  datatype Life = Life(phase: Phase, h3: bool, hasUd: bool,
                       closed: bool, draining: bool, wantClose: bool, wantGraceful: bool,
                       ccerr: CloseError, trace: seq<Effect>)

  datatype Conn = Conn(life: Life, resetCount: nat, streams: map<int, Stream>, sendLeft: nat, credit: Credit)

  /** on_accept: not registered, returned NULL, returned a context. */
  datatype Admission = NoCallback | Rejected | Admitted

  function NewCredit(cfg: Config): Credit
  {
    Credit(InitialMaxData(cfg), 0, 0, 0, 0, 0, 0, InitialBidiWindow(cfg), map[], InitialMaxStreams(cfg), 0, 0, {})
  }

  function Accept(cfg: Config, adm: Admission, sendLeft: nat): (c: Conn)
    ensures Wf(c)
  {
    var life := Life(Idle, false, adm.Admitted?, false, false, false, false, Unset, []);
    Conn(if adm.Rejected? then WantClose(life, Unset) else life, 0, map[], sendLeft, NewCredit(cfg))
  }

  // ---- steps ---------------------------------------------------------------

  /** How setting up nghttp3 went: done, refused before the object existed, or failed
      while binding the control and QPACK streams. */
  datatype Setup = SetupOk | SetupRefused | SetupHalfDone

  /** The result of ngtcp2_conn_read_pkt. */
  datatype ReadRv = ReadOk | ReadDraining | ReadDrop | ReadCrypto(alert: nat) | ReadOther(rv: int)

  /** What ngtcp2 reports while it parses one datagram, from start to result. */
  datatype PacketStep =
    | Begin
    | HandshakeCompleted(setup: Setup)
    | StreamOpen(id: int, window: nat)
    | RecvStreamData(id: int, len: nat, rv: int, body: nat, kept: nat)
    | DiscardData(id: int, len: nat)
    | DeferredConsume(id: int, n: nat)
    | StreamClose(id: int, appErrorSet: bool, known: bool)
    | StreamReset(id: int)
    | AckedStreamData(id: int, n: nat)
    | ExtendMaxStreamData(id: int, n: nat, rv: int)
    | ExtendMaxData(n: nat)
    | WriteSideShut(id: int)
    | CidCallback(ok: bool)
    | Done(r: ReadRv)

  /** One call of the write loop, round by round. `id` is the stream nghttp3 offers, or
      would offer if it were asked; `fin`: the end of the stream went out as well. */
  datatype WriteStep =
    | Start(emitted: bool)
    | ReadBody(id: int)
    | Frame(id: int, n: nat)
    | H3Broke(rv: int, emitted: bool)
    | More(id: int, n: nat, fin: bool)
    | Blocked(id: int)
    | Shut(id: int)
    | Packet(id: int, n: nat, fin: bool, sendOk: bool)
    | NewCid
    | Draining
    | Fatal
    | Nothing(emitted: bool)

  /** What the application asks for. */
  datatype AppStep =
    | Send(id: int, call: S.TxStep)
    | ResetStream(id: int)
    | StopSending(id: int, h3Rv: int, quicRv: int)
    | Consume(id: int, n: nat)
    | Goaway
    | CloseAbrupt(code: nat)
    | CloseGraceful(code: nat)

  datatype Step = OnPacket(p: PacketStep) | OnWrite(w: WriteStep) | OnCall(a: AppStep) | ExpiryFailed

  predicate IsRequest(id: int)
  {
    id % 4 == 0
  }

  predicate IsAppCall(call: S.TxStep)
  {
    call.SubmitResponse? || call.SubmitHead? || call.WriteBody? || call.FinishBody? || call.SubmitTrailers?
  }

  /** The write loop asks nghttp3 for data only when it exists and the connection's
      send window is open. */
  predicate MayOffer(c: Conn)
  {
    c.life.h3 && c.sendLeft > 0
  }

  predicate TxLegal(c: Conn, id: int, step: S.TxStep)
  {
    id in c.streams ==> S.Legal(c.streams[id].tx, step)
  }

  /** The stream a round offers to ngtcp2: -1 when nghttp3 is not asked. */
  function OfferedId(c: Conn, id: int): int
  {
    if MayOffer(c) then id else -1
  }

  /** ngtcp2 takes `n` bytes of the offered stream. */
  predicate TakeLegal(c: Conn, id: int, n: nat, fin: bool)
  {
    && n <= c.sendLeft && (OfferedId(c, id) < 0 ==> n == 0)
    && TxLegal(c, OfferedId(c, id), S.Transmit(n, fin))
  }

  /** A stream's receive credit; a stream without data so far has its initial window. */
  function FlowOf(k: Credit, id: int): Flow
  {
    if id in k.flows then k.flows[id] else Flow(InitialWindow(k, id), 0, 0)
  }

  function InitialWindow(k: Credit, id: int): nat
  {
    if id % 4 < 2 then k.bidi else UNI_WINDOW
  }

  /** The peer keeps to both limits. */
  predicate MayArrive(k: Credit, id: int, len: nat)
  {
    k.received + len <= k.maxData && FlowOf(k, id).received + len <= FlowOf(k, id).max
  }

  /** Only bytes that came on the stream are given back on it. */
  predicate MayReturn(k: Credit, id: int, n: nat)
  {
    id >= 0 ==> FlowOf(k, id).credited + n <= FlowOf(k, id).received
  }

  predicate Wf(c: Conn)
  {
    forall id | id in c.streams :: c.streams[id].tx.body.base <= c.streams[id].tx.body.handed
  }

  /** What ngtcp2 can report next. A failed callback ends the datagram, and the
      result is then an error other than draining, drop or crypto. */
  predicate PacketLegal(c: Conn, p: PacketStep)
  {
    match p
    case Begin => c.life.phase == Idle
    case StreamOpen(id, _) =>
      && c.life.phase == InPacket && id >= 0 && id !in c.credit.open
      && (IsRequest(id) ==> c.credit.started < c.credit.maxBidi)
    case RecvStreamData(id, len, rv, body, kept) =>
      c.life.phase == InPacket && id >= 0 && MayArrive(c.credit, id, len) && (rv >= 0 ==> rv + body + kept == len)
    case DiscardData(id, len) => c.life.phase == InPacket && id >= 0 && MayArrive(c.credit, id, len)
    case DeferredConsume(id, n) =>
      c.life.phase == InPacket && c.life.h3 && id >= 0 && n <= c.credit.deferred && MayReturn(c.credit, id, n)
    case StreamClose(id, _, _) => c.life.phase == InPacket && (IsRequest(id) ==> id in c.credit.open)
    case AckedStreamData(id, n) =>
      c.life.phase == InPacket && (c.life.h3 && id in c.streams ==> S.Legal(c.streams[id].tx, S.Acknowledge(n)))
    case Done(r) => c.life.phase == InPacket || (c.life.phase == Failing && r.ReadOther?)
    case _ => c.life.phase == InPacket
  }

  /** What the libraries can answer in the write loop. ngtcp2 refuses an offered
      stream for flow control only when the stream's window is used up. */
  predicate WriteLegal(c: Conn, w: WriteStep)
  {
    match w
    case Start(_) => c.life.phase == Idle
    case ReadBody(id) => c.life.phase == InWrite && TxLegal(c, OfferedId(c, id), S.ReadBody)
    case Frame(id, n) => c.life.phase == InWrite && TxLegal(c, OfferedId(c, id), S.Frame(n))
    case More(id, n, fin) => c.life.phase == InWrite && TakeLegal(c, id, n, fin)
    case Blocked(id) => c.life.phase == InWrite && TxLegal(c, OfferedId(c, id), S.RefuseBlocked)
    case Shut(id) => c.life.phase == InWrite && TxLegal(c, OfferedId(c, id), S.RefuseShut)
    case Packet(id, n, fin, _) => c.life.phase == InWrite && TakeLegal(c, id, n, fin)
    case _ => c.life.phase == InWrite
  }

  /** The application calls between datagrams or from inside a callback, and gives
      back only bytes it was given. */
  predicate AppLegal(c: Conn, a: AppStep)
  {
    && (c.life.phase == Idle || c.life.phase == InPacket)
    && (a.Send? ==> IsAppCall(a.call))
    && (a.Consume? ==> a.n <= c.credit.appHeld && MayReturn(c.credit, a.id, a.n))
  }

  predicate Legal(c: Conn, step: Step)
  {
    match step
    case OnPacket(p) => PacketLegal(c, p)
    case OnWrite(w) => WriteLegal(c, w)
    case OnCall(a) => AppLegal(c, a)
    case ExpiryFailed => c.life.phase == Idle
  }

  // ---- closing -------------------------------------------------------------

  function Log(l: Life, e: Effect): Life
  {
    l.(trace := l.trace + [e])
  }

  /** A call into nghttp3. Every caller has to know that its connection exists. */
  function CallH3(l: Life): Life
  {
    Log(l, H3Call)
  }

  /** Schedule an abrupt close for `err`. */
  function WantClose(l: Life, err: CloseError): Life
  {
    Log(l.(ccerr := err, wantClose := true), Abrupt(err))
  }

  function WantCloseUnlessEnding(l: Life, err: CloseError): Life
  {
    if l.wantClose || l.closed then l else WantClose(l, err)
  }

  function FailConn(l: Life, rv: int): Life
  {
    WantCloseUnlessEnding(if l.h3 then Log(l.(h3 := false), H3Fail(rv)) else l, H3Error(rv))
  }

  function CompleteHandshake(l: Life, setup: Setup): Life
  {
    if l.wantClose || l.closed || l.h3 then l
    else
      match setup
      case SetupOk => Log(l.(h3 := true), H3New)
      case SetupRefused => l.(phase := Failing)
      case SetupHalfDone => Log(l.(h3 := true, phase := Failing), H3New)
  }

  function EndPacket(l: Life, r: ReadRv): Life
  {
    var l1 := l.(phase := Idle);
    match r
    case ReadOk => l1
    case ReadDraining => l1.(draining := true)
    case ReadDrop => l1.(closed := true)
    case ReadCrypto(alert) => if l1.wantClose then l1 else WantClose(l1, TlsAlert(alert))
    case ReadOther(rv) => if l1.wantClose then l1 else WantClose(l1, LibError(rv))
  }

  /** Emit the pending CONNECTION_CLOSE (`emitted`: ngtcp2 produced a packet) and mark
      the connection for reaping. */
  function SendClose(l: Life, emitted: bool): Life
  {
    (if emitted then Log(l, ClosePacket(l.ccerr)) else l).(closed := true, phase := Idle)
  }

  /** vq_engine_recv drops datagrams for a connection that is ending. */
  function BeginPacket(l: Life): Life
  {
    if l.wantClose || l.closed then l else l.(phase := InPacket)
  }

  function StartWrite(l: Life, emitted: bool): Life
  {
    if l.closed then l
    else if l.wantClose then SendClose(l, emitted)
    else l.(phase := InWrite)
  }

  function NothingLeft(l: Life, emitted: bool): Life
  {
    if l.wantGraceful && !l.closed then SendClose(l, emitted) else l.(phase := Idle)
  }

  function CloseNow(l: Life, code: nat): Life
  {
    WantCloseUnlessEnding(l.(hasUd := false), AppError(code))
  }

  function CloseCleanly(l: Life, code: nat): Life
  {
    if l.wantClose || l.wantGraceful || l.closed then l
    else Log(l.(ccerr := AppError(code), wantGraceful := true), Graceful(AppError(code)))
  }

  // ---- streams, budget and credit ------------------------------------------

  function Call(c: Conn): Conn
  {
    c.(life := CallH3(c.life))
  }

  function OpenStream(c: Conn, id: int, window: nat): (r: Conn)
    requires Wf(c)
    ensures Wf(r)
  {
    if !IsRequest(id) then c
    else
      var tracked := c.(streams := c.streams[id := Stream(S.NewTx(window), false, false)],
                        credit := c.credit.(started := c.credit.started + 1, open := c.credit.open + {id}));
      if c.life.h3 then Call(tracked) else tracked
  }

  /** `len` bytes came on stream `id`. */
  function Arrive(k: Credit, id: int, len: nat): Credit
  {
    var f := FlowOf(k, id);
    k.(received := k.received + len, flows := k.flows[id := f.(received := f.received + len)])
  }

  /** Give `n` bytes of connection credit back to the peer. */
  function ExtendConn(k: Credit, n: nat): Credit
  {
    k.(maxData := k.maxData + n, credited := k.credited + n)
  }

  /** Give `n` bytes of stream and connection credit back; a negative `id` names no
      stream. */
  function Extend(k: Credit, id: int, n: nat): Credit
  {
    var f := FlowOf(k, id);
    ExtendConn(if id < 0 then k else k.(flows := k.flows[id := f.(max := f.max + n, credited := f.credited + n)]), n)
  }

  /** Data that is thrown away: before HTTP/3 was set up, or because it is over. */
  function Lose(c: Conn, k: Credit, len: nat): Credit
  {
    if !c.life.h3 && !c.life.wantClose && !c.life.closed then k.(early := k.early + len)
    else k.(dropped := k.dropped + len)
  }

  /** `rv`: what nghttp3_conn_read_stream returned, if it was called at all. */
  function ReceiveData(c: Conn, id: int, len: nat, rv: int, body: nat, kept: nat): Conn
  {
    var arrived := Arrive(c.credit, id, len);
    if !c.life.h3 then c.(credit := Lose(c, arrived, len))
    else if rv < 0 then c.(life := FailConn(CallH3(c.life), rv).(phase := Failing), credit := Lose(c, arrived, len))
    else
      Call(c).(credit := Extend(arrived, id, rv).(appHeld := arrived.appHeld + body,
                                                  deferred := arrived.deferred + kept))
  }

  /** A close with an application error code that we did not provoke ourselves. */
  predicate ChargedClose(cfg: Config, c: Conn, id: int, appErrorSet: bool)
  {
    && cfg.maxResetStreams > 0 && IsRequest(id) && appErrorSet
    && !(id in c.streams && c.streams[id].stopSent)
  }

  function CloseStreamLife(cfg: Config, c: Conn, id: int, appErrorSet: bool): Life
  {
    var l := if c.life.h3 then CallH3(c.life) else c.life;
    if ChargedClose(cfg, c, id, appErrorSet) && c.resetCount + 1 > cfg.maxResetStreams
    then WantCloseUnlessEnding(l, AppError(H3_EXCESSIVE_LOAD))
    else l
  }

  /** A stream closed. `known`: nghttp3 had the stream, so its stream_close callback
      dropped the shim's record too. */
  function CloseStream(cfg: Config, c: Conn, id: int, appErrorSet: bool, known: bool): (r: Conn)
    requires Wf(c)
    ensures Wf(r)
  {
    Conn(CloseStreamLife(cfg, c, id, appErrorSet),
         if ChargedClose(cfg, c, id, appErrorSet) then c.resetCount + 1 else c.resetCount,
         if c.life.h3 && known then c.streams - {id} else c.streams,
         c.sendLeft,
         if IsRequest(id)
         then c.credit.(maxBidi := c.credit.maxBidi + 1, finished := c.credit.finished + 1,
                        open := c.credit.open - {id})
         else c.credit)
  }

  function ResetByPeer(c: Conn, id: int): (r: Conn)
    requires Wf(c)
    ensures Wf(r)
  {
    if id in c.streams && !c.streams[id].stopSent
    then c.(streams := c.streams[id := c.streams[id].(peerReset := true)])
    else c
  }

  /** Apply a sending step to a stream the shim still tracks. */
  function Tx(c: Conn, id: int, step: S.TxStep): (r: Conn)
    requires Wf(c) && TxLegal(c, id, step)
    ensures Wf(r)
  {
    if id in c.streams
    then c.(streams := c.streams[id := c.streams[id].(tx := S.Apply(c.streams[id].tx, step))])
    else c
  }

  /** The window grows, and nghttp3 is told to unblock the stream (`rv`). */
  function ExtendStream(c: Conn, id: int, n: nat, rv: int): (r: Conn)
    requires Wf(c)
    ensures Wf(r)
  {
    if c.life.h3 && rv == 0 then Tx(Call(c), id, S.ExtendWindow(n))
    else
      c.(life := if c.life.h3 then CallH3(c.life).(phase := Failing) else c.life,
         streams := if id in c.streams then c.streams[id := WiderWindow(c.streams[id], n)] else c.streams)
  }

  function WiderWindow(s: Stream, n: nat): Stream
  {
    s.(tx := s.tx.(gate := s.tx.gate.(window := s.tx.gate.window + n)))
  }

  /** A step nghttp3 takes while it is asked for the next stream to offer. */
  function Asked(c: Conn, id: int, step: S.TxStep): (r: Conn)
    requires Wf(c) && TxLegal(c, OfferedId(c, id), step)
    ensures Wf(r)
  {
    if MayOffer(c) then Tx(Call(c), id, step) else c
  }

  function TakenLife(c: Conn, id: int): Life
  {
    if c.life.h3 && OfferedId(c, id) >= 0 then CallH3(c.life) else c.life
  }

  /** ngtcp2 took `n` bytes of the offered stream, and nghttp3 is told so. */
  function Taken(c: Conn, id: int, n: nat, fin: bool): (r: Conn)
    requires Wf(c) && TakeLegal(c, id, n, fin)
    ensures Wf(r)
  {
    var sid := OfferedId(c, id);
    Tx(c.(life := TakenLife(c, id), sendLeft := c.sendLeft - n), sid, S.Transmit(n, fin))
  }

  /** ngtcp2 refused the offered stream: nghttp3 parks it. */
  function Parked(c: Conn, id: int, step: S.TxStep): (r: Conn)
    requires Wf(c) && TxLegal(c, OfferedId(c, id), step)
    ensures Wf(r)
  {
    var sid := OfferedId(c, id);
    if c.life.h3 && sid >= 0 then Tx(Call(c), sid, step) else c
  }

  /** The call goes on to nghttp3: a head is submitted once, trailers only after it. */
  predicate ReachesH3(t: S.Tx, call: S.TxStep)
  {
    match call
    case SubmitResponse(_, _, _) => !t.headSubmitted
    case SubmitHead(_) => !t.headSubmitted
    case SubmitTrailers(fields, _) => t.headSubmitted && fields > 0
    case _ => true
  }

  /** A response call on a stream: ignored without a tracked stream or without nghttp3. */
  function SendCall(c: Conn, id: int, call: S.TxStep): (r: Conn)
    requires Wf(c) && IsAppCall(call)
    ensures Wf(r)
  {
    if id !in c.streams || !c.life.h3 || !ReachesH3(c.streams[id].tx, call) then c else Tx(Call(c), id, call)
  }

  function StopReading(c: Conn, id: int, h3Rv: int, quicRv: int): (r: Conn)
    requires Wf(c)
    ensures Wf(r)
  {
    if id !in c.streams || c.streams[id].stopSent || c.streams[id].peerReset then c
    else if c.life.h3 && h3Rv != 0 then c.(life := FailConn(CallH3(c.life), h3Rv))
    else
      var d := if c.life.h3 then Call(c) else c;
      if quicRv != 0 then d.(life := WantCloseUnlessEnding(d.life, LibError(quicRv)))
      else d.(streams := d.streams[id := d.streams[id].(stopSent := true)])
  }

  /** What that call returns: nothing to do, the library's error, stopped. */
  function StopResult(c: Conn, id: int, h3Rv: int, quicRv: int): int
  {
    if id !in c.streams || c.streams[id].stopSent || c.streams[id].peerReset then 0
    else if c.life.h3 && h3Rv != 0 then h3Rv
    else if quicRv != 0 then quicRv
    else 1
  }

  // ---- the machine ---------------------------------------------------------

  function ApplyPacket(cfg: Config, c: Conn, p: PacketStep): (t: Conn)
    requires Wf(c) && PacketLegal(c, p)
    ensures Wf(t)
  {
    match p
    case Begin => c.(life := BeginPacket(c.life))
    case HandshakeCompleted(setup) => c.(life := CompleteHandshake(c.life, setup))
    case StreamOpen(id, window) => OpenStream(c, id, window)
    case RecvStreamData(id, len, rv, body, kept) => ReceiveData(c, id, len, rv, body, kept)
    case DiscardData(id, len) => c.(credit := ExtendConn(Arrive(c.credit, id, len), len))
    case DeferredConsume(id, n) => c.(credit := Extend(c.credit.(deferred := c.credit.deferred - n), id, n))
    case StreamClose(id, appErrorSet, known) => CloseStream(cfg, c, id, appErrorSet, known)
    case StreamReset(id) => ResetByPeer(c, id)
    case AckedStreamData(id, n) => if c.life.h3 then Tx(Call(c), id, S.Acknowledge(n)) else c
    case ExtendMaxStreamData(id, n, rv) => ExtendStream(c, id, n, rv)
    case ExtendMaxData(n) => c.(sendLeft := c.sendLeft + n)
    case WriteSideShut(id) => Tx(c, id, S.ShutWrite)
    case CidCallback(ok) => if ok then c else c.(life := c.life.(phase := Failing))
    case Done(r) => c.(life := EndPacket(c.life, r))
  }

  function ApplyWrite(c: Conn, w: WriteStep): (t: Conn)
    requires Wf(c) && WriteLegal(c, w)
    ensures Wf(t)
  {
    match w
    case Start(emitted) => c.(life := StartWrite(c.life, emitted))
    case ReadBody(id) => Asked(c, id, S.ReadBody)
    case Frame(id, n) => Asked(c, id, S.Frame(n))
    case H3Broke(rv, emitted) =>
      if MayOffer(c) then c.(life := SendClose(FailConn(CallH3(c.life), rv), emitted)) else c
    case More(id, n, fin) => Taken(c, id, n, fin)
    case Blocked(id) => Parked(c, id, S.RefuseBlocked)
    case Shut(id) => Parked(c, id, S.RefuseShut)
    case Packet(id, n, fin, sendOk) =>
      var t := Taken(c, id, n, fin);
      var sent := Log(t.life, Datagram);
      t.(life := if sendOk then sent else sent.(phase := Idle))
    case NewCid => c
    case Draining => c.(life := c.life.(draining := true, phase := Idle))
    case Fatal => c.(life := c.life.(closed := true, phase := Idle))
    case Nothing(emitted) => c.(life := NothingLeft(c.life, emitted))
  }

  function ApplyCall(c: Conn, a: AppStep): (t: Conn)
    requires Wf(c) && AppLegal(c, a)
    ensures Wf(t)
  {
    match a
    case Send(id, call) => SendCall(c, id, call)
    case ResetStream(id) => Tx(c, id, S.ShutWrite)
    case StopSending(id, h3Rv, quicRv) => StopReading(c, id, h3Rv, quicRv)
    case Consume(id, n) => c.(credit := Extend(c.credit.(appHeld := c.credit.appHeld - n), id, n))
    case Goaway => if c.life.h3 then Call(c) else c
    case CloseAbrupt(code) => c.(life := CloseNow(c.life, code))
    case CloseGraceful(code) => c.(life := CloseCleanly(c.life, code))
  }

  function Apply(cfg: Config, c: Conn, step: Step): (t: Conn)
    requires Wf(c) && Legal(c, step)
    ensures Wf(t)
  {
    match step
    case OnPacket(p) => ApplyPacket(cfg, c, p)
    case OnWrite(w) => ApplyWrite(c, w)
    case OnCall(a) => ApplyCall(c, a)
    case ExpiryFailed => c.(life := c.life.(closed := true))
  }

  /** Run the steps in order from `c`; `None` if one of them cannot happen. */
  function Run(cfg: Config, c: Conn, steps: seq<Step>): (r: Option<Conn>)
    requires Wf(c)
    ensures r.Some? ==> Wf(r.value)
    decreases |steps|
  {
    if steps == [] then Some(c)
    else if !Legal(c, steps[0]) then None
    else Run(cfg, Apply(cfg, c, steps[0]), steps[1..])
  }
}
