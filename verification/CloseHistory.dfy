/** How a connection ends, read off the steps of its run: which step gives a reason to
    close, which one ends it, what reaches nghttp3 and what goes on the wire. The shim's
    flags, its close code and its record follow from that. */
module CloseHistory {
  import opened Common
  import opened Connection
  import opened ConnectionRuns
  import S = StreamSend

  /** What the steps so far amount to. abrupt: the first reason for an abrupt close;
      graceful: the code of a graceful one; over: the connection waits to be reaped;
      out: the calls into nghttp3, the reasons to close and the packets, in order. */
  datatype Ending = Ending(phase: Phase, http: bool, owned: bool, abrupt: Option<CloseError>, graceful: Option<nat>,
                           over: bool, drained: bool, out: seq<Effect>)

  /** A connection the application turns away is to be closed without a code. */
  function Begun(adm: Admission): Ending
  {
    Ending(Idle, false, adm == Admitted, if adm == Rejected then Some(Unset) else None, None, false, false,
           if adm == Rejected then [Abrupt(Unset)] else [])
  }

  // ---- what a step is ------------------------------------------------------

  /** The stream close that goes over the budget of resets. */
  predicate OverBudget(cfg: Config, c: Conn, id: int, appErrorSet: bool)
  {
    && 0 < cfg.maxResetStreams <= c.resetCount && appErrorSet && id % 4 == 0
    && (id in c.streams ==> !c.streams[id].stopSent)
  }

  /** A stream that can still be asked to stop. */
  predicate Stoppable(c: Conn, id: int)
  {
    id in c.streams && !c.streams[id].stopSent && !c.streams[id].peerReset
  }

  /** The write loop asks nghttp3 only while its connection's send window is open. */
  predicate Asks(c: Conn, http: bool)
  {
    http && c.sendLeft > 0
  }

  /** The reason a step gives for an abrupt close: an nghttp3 error, the reset budget, a
      TLS alert, another error of the transport, the application's code. */
  function Reason(cfg: Config, c: Conn, http: bool, step: Step): Option<CloseError>
  {
    match step
    case OnPacket(RecvStreamData(_, _, rv, _, _)) => if http && rv < 0 then Some(H3Error(rv)) else None
    case OnPacket(StreamClose(id, coded, _)) =>
      if OverBudget(cfg, c, id, coded) then Some(AppError(0x0107)) else None
    case OnPacket(Done(ReadCrypto(alert))) => Some(TlsAlert(alert))
    case OnPacket(Done(ReadOther(rv))) => Some(LibError(rv))
    case OnWrite(H3Broke(rv, _)) => if Asks(c, http) then Some(H3Error(rv)) else None
    case OnCall(StopSending(id, h3Rv, quicRv)) =>
      if !Stoppable(c, id) then None
      else if http && h3Rv != 0 then Some(H3Error(h3Rv))
      else if quicRv != 0 then Some(LibError(quicRv))
      else None
    case OnCall(CloseAbrupt(code)) => Some(AppError(code))
    case _ => None
  }

  /** The step sends the CONNECTION_CLOSE that is due: a write call finds an abrupt close
      pending, the write loop runs dry with a graceful one pending, or nghttp3 breaks. */
  predicate CloseDue(e: Ending, c: Conn, step: Step)
  {
    && !e.over
    && match step
       case OnWrite(Start(_)) => e.abrupt.Some?
       case OnWrite(Nothing(_)) => e.graceful.Some?
       case OnWrite(H3Broke(_, _)) => Asks(c, e.http)
       case _ => false
  }

  /** ngtcp2 made a packet of it. */
  predicate Emitted(step: Step)
  {
    step.OnWrite? && (step.w.Start? || step.w.Nothing? || step.w.H3Broke?) && step.w.emitted
  }

  /** The connection ends without a packet of ours. */
  predicate Dies(step: Step)
  {
    step == OnPacket(Done(ReadDrop)) || step == OnWrite(Fatal) || step.ExpiryFailed?
  }

  predicate Drains(step: Step)
  {
    step == OnPacket(Done(ReadDraining)) || step == OnWrite(WriteStep.Draining)
  }

  /** Setting up nghttp3 gets as far as its connection. */
  predicate SetsUp(e: Ending, step: Step)
  {
    && step.OnPacket? && step.p.HandshakeCompleted? && step.p.setup != SetupRefused
    && !e.http && !e.over && e.abrupt.None?
  }

  /** The step is a call into nghttp3. */
  predicate Talks(c: Conn, http: bool, step: Step)
  {
    && http
    && match step
       case OnPacket(p) =>
         || (p.StreamOpen? && p.id % 4 == 0) || p.RecvStreamData? || p.StreamClose? || p.AckedStreamData?
         || p.ExtendMaxStreamData?
       case OnWrite(w) =>
         && c.sendLeft > 0
         && (|| w.ReadBody? || w.Frame? || w.H3Broke?
             || ((w.More? || w.Packet? || w.Blocked? || w.Shut?) && w.id >= 0))
       case OnCall(Send(id, call)) => id in c.streams && ReachesH3(c.streams[id].tx, call)
       case OnCall(StopSending(id, _, _)) => Stoppable(c, id)
       case OnCall(Goaway) => true
       case _ => false
  }

  /** A callback fails. */
  predicate Fails(e: Ending, step: Step)
  {
    && step.OnPacket?
    && match step.p
       case HandshakeCompleted(setup) => setup != SetupOk && !e.http && !e.over && e.abrupt.None?
       case RecvStreamData(_, _, rv, _, _) => e.http && rv < 0
       case ExtendMaxStreamData(_, _, rv) => e.http && rv != 0
       case CidCallback(ok) => !ok
       case _ => false
  }

  // ---- the story -----------------------------------------------------------

  /** The first reason counts, and none once the connection is over. */
  function FirstReason(cfg: Config, c: Conn, e: Ending, step: Step): Option<CloseError>
  {
    if e.abrupt.Some? || e.over then e.abrupt else Reason(cfg, c, e.http, step)
  }

  function FirstGrace(e: Ending, step: Step): Option<nat>
  {
    if step.OnCall? && step.a.CloseGraceful? && e.abrupt.None? && e.graceful.None? && !e.over then Some(step.a.code)
    else e.graceful
  }

  function Code(abrupt: Option<CloseError>, graceful: Option<nat>): CloseError
  {
    if abrupt.Some? then abrupt.value
    else if graceful.Some? then AppError(graceful.value)
    else Unset
  }

  /** nghttp3 is set up once and gone for good after an error of its own. */
  predicate HttpAfter(cfg: Config, c: Conn, e: Ending, step: Step)
  {
    SetsUp(e, step) || (e.http && !(Reason(cfg, c, e.http, step).Some? && Reason(cfg, c, e.http, step).value.H3Error?))
  }

  function PhaseAfter(c: Conn, e: Ending, step: Step): Phase
  {
    match step
    case OnPacket(Begin) => if e.abrupt.Some? || e.over then Idle else InPacket
    case OnPacket(Done(_)) => Idle
    case OnPacket(_) => if Fails(e, step) then Failing else e.phase
    case OnWrite(Start(_)) => if e.abrupt.Some? || e.over then Idle else InWrite
    case OnWrite(H3Broke(_, _)) => if Asks(c, e.http) then Idle else e.phase
    case OnWrite(Packet(_, _, _, sendOk)) => if sendOk then e.phase else Idle
    case OnWrite(Draining) => Idle
    case OnWrite(Fatal) => Idle
    case OnWrite(Nothing(_)) => Idle
    case _ => e.phase
  }

  function Called(c: Conn, e: Ending, step: Step): seq<Effect>
  {
    if SetsUp(e, step) then [H3New] else if Talks(c, e.http, step) then [H3Call] else []
  }

  /** An error of nghttp3 is noted, and so is the first reason to close. */
  function Noted(cfg: Config, c: Conn, e: Ending, step: Step): seq<Effect>
  {
    var reason, first := Reason(cfg, c, e.http, step), FirstReason(cfg, c, e, step);
    (if reason.Some? && reason.value.H3Error? then [H3Fail(reason.value.rv)] else [])
    + (if e.abrupt.None? && first.Some? then [Abrupt(first.value)] else [])
    + (if FirstGrace(e, step) != e.graceful then [Graceful(AppError(step.a.code))] else [])
  }

  function Packeted(cfg: Config, c: Conn, e: Ending, step: Step): seq<Effect>
  {
    if step.OnWrite? && step.w.Packet? then [Datagram]
    else if CloseDue(e, c, step) && Emitted(step)
    then [ClosePacket(Code(FirstReason(cfg, c, e, step), e.graceful))]
    else []
  }

  /** What the step shows: a call into nghttp3, the reasons to close, a packet. */
  function Shown(cfg: Config, c: Conn, e: Ending, step: Step): seq<Effect>
  {
    Called(c, e, step) + Noted(cfg, c, e, step) + Packeted(cfg, c, e, step)
  }

  function Follow(cfg: Config, c: Conn, e: Ending, step: Step): Ending
  {
    Ending(PhaseAfter(c, e, step), HttpAfter(cfg, c, e, step), e.owned && !(step.OnCall? && step.a.CloseAbrupt?),
           FirstReason(cfg, c, e, step), FirstGrace(e, step),
           e.over || CloseDue(e, c, step) || Dies(step), e.drained || Drains(step),
           e.out + Shown(cfg, c, e, step))
  }

  /** The story of a run that starts at `c`, of which `e` is known. */
  function Story(cfg: Config, c: Conn, e: Ending, steps: seq<Step>): Ending
    requires Wf(c) && Run(cfg, c, steps).Some?
    decreases |steps|
  {
    if steps == [] then e
    else Story(cfg, Apply(cfg, c, steps[0]), Follow(cfg, c, e, steps[0]), steps[1..])
  }

  // ---- the shim keeps to it ------------------------------------------------

  predicate Fits(l: Life, e: Ending)
  {
    && l.phase == e.phase && l.h3 == e.http && l.hasUd == e.owned && l.closed == e.over && l.draining == e.drained
    && l.wantClose == e.abrupt.Some? && l.wantGraceful == e.graceful.Some?
    && l.ccerr == Code(e.abrupt, e.graceful)
    && l.trace == e.out
  }

  /** Steps that are at most a call into nghttp3. */
  predicate Plain(step: Step)
  {
    match step
    case OnPacket(p) =>
      || p.StreamOpen? || p.DiscardData? || p.DeferredConsume? || p.StreamReset? || p.AckedStreamData?
      || p.ExtendMaxData? || p.WriteSideShut?
    case OnWrite(w) => w.ReadBody? || w.Frame? || w.More? || w.Blocked? || w.Shut? || w.NewCid?
    case OnCall(a) => a.Send? || a.ResetStream? || a.Consume? || a.Goaway?
    case ExpiryFailed => false
  }

  lemma {:induction false} PlainStory(cfg: Config, c: Conn, e: Ending, step: Step)
    requires Plain(step)
    ensures Follow(cfg, c, e, step) == Heard(e, Talks(c, e.http, step))
  {
  }

  lemma {:induction false} PlainPacket(cfg: Config, c: Conn, p: PacketStep)
    requires Plain(OnPacket(p)) && Wf(c) && PacketLegal(c, p)
    ensures ApplyPacket(cfg, c, p).life == if Talks(c, c.life.h3, OnPacket(p)) then CallH3(c.life) else c.life
  {
  }

  lemma {:induction false} PlainWrite(c: Conn, w: WriteStep)
    requires Plain(OnWrite(w)) && Wf(c) && WriteLegal(c, w)
    ensures ApplyWrite(c, w).life == if Talks(c, c.life.h3, OnWrite(w)) then CallH3(c.life) else c.life
  {
    match w
    case ReadBody(id) => OfferLife(c, id, S.ReadBody);
    case Frame(id, n) => OfferLife(c, id, S.Frame(n));
    case More(id, n, fin) => TakeLife(c, id, n, fin);
    case Blocked(id) => OfferLife(c, id, S.RefuseBlocked);
    case Shut(id) => OfferLife(c, id, S.RefuseShut);
    case _ =>
  }

  lemma {:induction false} PlainCall(c: Conn, a: AppStep)
    requires Plain(OnCall(a)) && Wf(c) && AppLegal(c, a)
    ensures ApplyCall(c, a).life == if Talks(c, c.life.h3, OnCall(a)) then CallH3(c.life) else c.life
  {
    match a
    case Send(id, call) => assert SendCall(c, id, call).life == c.life || SendCall(c, id, call).life == CallH3(c.life);
    case _ =>
  }

  lemma {:induction false} PlainFits(cfg: Config, c: Conn, e: Ending, step: Step)
    requires Fits(c.life, e) && Plain(step) && Wf(c) && Legal(c, step)
    ensures Fits(Apply(cfg, c, step).life, Follow(cfg, c, e, step))
  {
    PlainStory(cfg, c, e, step);
    PlainLife(cfg, c, step);
    CallFits(c.life, e, Talks(c, e.http, step));
  }

  lemma {:induction false} PlainLife(cfg: Config, c: Conn, step: Step)
    requires Plain(step) && Wf(c) && Legal(c, step)
    ensures Apply(cfg, c, step).life == if Talks(c, c.life.h3, step) then CallH3(c.life) else c.life
  {
    match step
    case OnPacket(p) => PlainPacket(cfg, c, p);
    case OnWrite(w) => PlainWrite(c, w);
    case OnCall(a) => PlainCall(c, a);
  }

  // The pieces the other steps are made of.

  function Heard(e: Ending, talks: bool): Ending
  {
    e.(out := e.out + if talks then [H3Call] else [])
  }

  function Given(e: Ending, err: CloseError): Ending
  {
    if e.abrupt.Some? || e.over then e else e.(abrupt := Some(err), out := e.out + [Abrupt(err)])
  }

  function Broken(e: Ending, rv: int): Ending
  {
    Given(e.(http := false, out := e.out + [H3Fail(rv)]), H3Error(rv))
  }

  function Sealed(e: Ending, emitted: bool): Ending
  {
    e.(phase := Idle, over := true,
       out := e.out + if emitted then [ClosePacket(Code(e.abrupt, e.graceful))] else [])
  }

  lemma {:induction false} CallFits(l: Life, e: Ending, talks: bool)
    requires Fits(l, e)
    ensures Fits(if talks then CallH3(l) else l, Heard(e, talks))
  {
  }

  lemma {:induction false} ReasonFits(l: Life, e: Ending, err: CloseError)
    requires Fits(l, e)
    ensures Fits(WantCloseUnlessEnding(l, err), Given(e, err))
  {
  }

  lemma {:induction false} FailFits(l: Life, e: Ending, rv: int)
    requires Fits(l, e) && l.h3
    ensures Fits(FailConn(l, rv), Broken(e, rv))
  {
    ReasonFits(Log(l.(h3 := false), H3Fail(rv)), e.(http := false, out := e.out + [H3Fail(rv)]), H3Error(rv));
  }

  lemma {:induction false} SendCloseFits(l: Life, e: Ending, emitted: bool)
    requires Fits(l, e)
    ensures Fits(SendClose(l, emitted), Sealed(e, emitted))
  {
  }

  // ---- datagrams -----------------------------------------------------------

  lemma {:induction false} BeginFits(cfg: Config, c: Conn, e: Ending)
    requires Fits(c.life, e) && c.life.phase == Idle
    ensures Fits(BeginPacket(c.life), Follow(cfg, c, e, OnPacket(Begin)))
  {
    assert Follow(cfg, c, e, OnPacket(Begin)) == e.(phase := if e.abrupt.Some? || e.over then Idle else InPacket);
  }

  lemma {:induction false} CidFits(cfg: Config, c: Conn, e: Ending, ok: bool)
    requires Fits(c.life, e)
    ensures Fits(if ok then c.life else c.life.(phase := Failing), Follow(cfg, c, e, OnPacket(CidCallback(ok))))
  {
    assert Follow(cfg, c, e, OnPacket(CidCallback(ok))) == e.(phase := if ok then e.phase else Failing);
  }

  lemma {:induction false} HandshakeFits(cfg: Config, c: Conn, e: Ending, setup: Setup)
    requires Fits(c.life, e)
    ensures Fits(CompleteHandshake(c.life, setup), Follow(cfg, c, e, OnPacket(HandshakeCompleted(setup))))
  {
  }

  lemma {:induction false} ReceiveStory(cfg: Config, c: Conn, e: Ending, p: PacketStep)
    requires p.RecvStreamData?
    ensures Follow(cfg, c, e, OnPacket(p))
            == if e.http && p.rv < 0 then Broken(Heard(e, true), p.rv).(phase := Failing) else Heard(e, e.http)
  {
    assert Noted(cfg, c, e, OnPacket(p)) + Packeted(cfg, c, e, OnPacket(p)) == Noted(cfg, c, e, OnPacket(p));
  }

  lemma {:induction false} ReceiveLife(cfg: Config, c: Conn, p: PacketStep)
    requires Wf(c) && PacketLegal(c, p) && p.RecvStreamData?
    ensures ApplyPacket(cfg, c, p).life
            == if c.life.h3 && p.rv < 0 then FailConn(CallH3(c.life), p.rv).(phase := Failing)
               else if c.life.h3 then CallH3(c.life)
               else c.life
  {
  }

  lemma {:induction false} ReceiveFits(cfg: Config, c: Conn, e: Ending, p: PacketStep)
    requires Fits(c.life, e) && Wf(c) && PacketLegal(c, p) && p.RecvStreamData?
    ensures Fits(ApplyPacket(cfg, c, p).life, Follow(cfg, c, e, OnPacket(p)))
  {
    ReceiveStory(cfg, c, e, p);
    ReceiveLife(cfg, c, p);
    CallFits(c.life, e, e.http);
    if e.http && p.rv < 0 {
      FailFits(CallH3(c.life), Heard(e, true), p.rv);
    }
  }

  lemma {:induction false} CloseStreamStory(cfg: Config, c: Conn, e: Ending, p: PacketStep)
    requires p.StreamClose?
    ensures Follow(cfg, c, e, OnPacket(p))
            == if OverBudget(cfg, c, p.id, p.appErrorSet) then Given(Heard(e, e.http), AppError(0x0107))
               else Heard(e, e.http)
  {
  }

  lemma {:induction false} CloseStreamFits(cfg: Config, c: Conn, e: Ending, p: PacketStep)
    requires Fits(c.life, e) && Wf(c) && PacketLegal(c, p) && p.StreamClose?
    ensures Fits(ApplyPacket(cfg, c, p).life, Follow(cfg, c, e, OnPacket(p)))
  {
    CloseStreamStory(cfg, c, e, p);
    CallFits(c.life, e, e.http);
    ReasonFits(if e.http then CallH3(c.life) else c.life, Heard(e, e.http), AppError(0x0107));
  }

  lemma {:induction false} WidenStory(cfg: Config, c: Conn, e: Ending, p: PacketStep)
    requires p.ExtendMaxStreamData?
    ensures Follow(cfg, c, e, OnPacket(p))
            == Heard(e, e.http).(phase := if e.http && p.rv != 0 then Failing else e.phase)
  {
  }

  lemma {:induction false} WidenFits(cfg: Config, c: Conn, e: Ending, p: PacketStep)
    requires Fits(c.life, e) && Wf(c) && PacketLegal(c, p) && p.ExtendMaxStreamData?
    ensures Fits(ApplyPacket(cfg, c, p).life, Follow(cfg, c, e, OnPacket(p)))
  {
    WidenStory(cfg, c, e, p);
    CallFits(c.life, e, e.http);
    var l := if e.http then CallH3(c.life) else c.life;
    assert ApplyPacket(cfg, c, p).life == l.(phase := if e.http && p.rv != 0 then Failing else l.phase);
  }

  lemma {:induction false} DoneStory(cfg: Config, c: Conn, e: Ending, r: ReadRv)
    ensures var idle := e.(phase := Idle);
            Follow(cfg, c, e, OnPacket(Done(r)))
            == match r
               case ReadOk => idle
               case ReadDraining => idle.(drained := true)
               case ReadDrop => idle.(over := true)
               case ReadCrypto(alert) => Given(idle, TlsAlert(alert))
               case ReadOther(rv) => Given(idle, LibError(rv))
  {
  }

  lemma {:induction false} DoneFits(cfg: Config, c: Conn, e: Ending, r: ReadRv)
    requires Fits(c.life, e) && !c.life.closed
    ensures Fits(EndPacket(c.life, r), Follow(cfg, c, e, OnPacket(Done(r))))
  {
    DoneStory(cfg, c, e, r);
    var l, idle := c.life.(phase := Idle), e.(phase := Idle);
    assert Fits(l, idle);
    match r
    case ReadCrypto(alert) => ReasonFits(l, idle, TlsAlert(alert));
    case ReadOther(rv) => ReasonFits(l, idle, LibError(rv));
    case _ =>
  }

  lemma {:induction false} PacketFits(cfg: Config, c: Conn, e: Ending, p: PacketStep)
    requires Fits(c.life, e) && Wf(c) && PacketLegal(c, p) && !Plain(OnPacket(p))
    requires c.life.closed ==> c.life.phase == Idle
    ensures Fits(ApplyPacket(cfg, c, p).life, Follow(cfg, c, e, OnPacket(p)))
  {
    match p
    case Begin => BeginFits(cfg, c, e);
    case HandshakeCompleted(setup) => HandshakeFits(cfg, c, e, setup);
    case RecvStreamData(_, _, _, _, _) => ReceiveFits(cfg, c, e, p);
    case StreamClose(_, _, _) => CloseStreamFits(cfg, c, e, p);
    case ExtendMaxStreamData(_, _, _) => WidenFits(cfg, c, e, p);
    case CidCallback(ok) => CidFits(cfg, c, e, ok);
    case Done(r) => DoneFits(cfg, c, e, r);
  }

  // ---- the write loop ------------------------------------------------------

  lemma {:induction false} StartFits(cfg: Config, c: Conn, e: Ending, emitted: bool)
    requires Fits(c.life, e) && c.life.phase == Idle
    ensures Fits(StartWrite(c.life, emitted), Follow(cfg, c, e, OnWrite(Start(emitted))))
  {
    SendCloseFits(c.life, e, emitted);
    assert Follow(cfg, c, e, OnWrite(Start(emitted)))
        == if e.over then e else if e.abrupt.Some? then Sealed(e, emitted) else e.(phase := InWrite);
  }

  lemma {:induction false} BrokeStory(cfg: Config, c: Conn, e: Ending, rv: int, emitted: bool)
    requires !e.over && e.abrupt.None?
    ensures Follow(cfg, c, e, OnWrite(H3Broke(rv, emitted)))
            == if Asks(c, e.http) then Sealed(Broken(Heard(e, true), rv), emitted) else e
  {
    var step := OnWrite(H3Broke(rv, emitted));
    if Asks(c, e.http) {
      assert Noted(cfg, c, e, step) == [H3Fail(rv), Abrupt(H3Error(rv))];
      assert e.out + Shown(cfg, c, e, step)
          == e.out + [H3Call] + [H3Fail(rv)] + [Abrupt(H3Error(rv))] + Packeted(cfg, c, e, step);
    }
  }

  lemma {:induction false} BrokeFits(cfg: Config, c: Conn, e: Ending, rv: int, emitted: bool)
    requires Fits(c.life, e) && Wf(c) && WriteLegal(c, H3Broke(rv, emitted)) && !c.life.closed && !c.life.wantClose
    ensures Fits(ApplyWrite(c, H3Broke(rv, emitted)).life, Follow(cfg, c, e, OnWrite(H3Broke(rv, emitted))))
  {
    BrokeStory(cfg, c, e, rv, emitted);
    if Asks(c, e.http) {
      CallFits(c.life, e, true);
      FailFits(CallH3(c.life), Heard(e, true), rv);
      SendCloseFits(FailConn(CallH3(c.life), rv), Broken(Heard(e, true), rv), emitted);
    }
  }

  lemma {:induction false} SentStory(cfg: Config, c: Conn, e: Ending, w: WriteStep)
    requires w.Packet?
    ensures var called := Heard(e, Talks(c, e.http, OnWrite(w)));
            Follow(cfg, c, e, OnWrite(w))
            == called.(phase := if w.sendOk then e.phase else Idle, out := called.out + [Datagram])
  {
  }

  lemma {:induction false} SentLife(c: Conn, w: WriteStep)
    requires Wf(c) && WriteLegal(c, w) && w.Packet?
    ensures var l := if Talks(c, c.life.h3, OnWrite(w)) then CallH3(c.life) else c.life;
            ApplyWrite(c, w).life == Log(l, Datagram).(phase := if w.sendOk then l.phase else Idle)
  {
    TakeLife(c, w.id, w.n, w.fin);
  }

  lemma {:induction false} SentFits(cfg: Config, c: Conn, e: Ending, w: WriteStep)
    requires Fits(c.life, e) && Wf(c) && WriteLegal(c, w) && w.Packet?
    ensures Fits(ApplyWrite(c, w).life, Follow(cfg, c, e, OnWrite(w)))
  {
    SentStory(cfg, c, e, w);
    SentLife(c, w);
    CallFits(c.life, e, Talks(c, e.http, OnWrite(w)));
  }

  lemma {:induction false} DryFits(cfg: Config, c: Conn, e: Ending, emitted: bool)
    requires Fits(c.life, e) && !c.life.wantClose && !c.life.closed
    ensures Fits(NothingLeft(c.life, emitted), Follow(cfg, c, e, OnWrite(WriteStep.Nothing(emitted))))
  {
    SendCloseFits(c.life, e, emitted);
    assert Follow(cfg, c, e, OnWrite(WriteStep.Nothing(emitted)))
        == if e.graceful.Some? then Sealed(e, emitted) else e.(phase := Idle);
  }

  lemma {:induction false} WriteFits(cfg: Config, c: Conn, e: Ending, w: WriteStep)
    requires Fits(c.life, e) && Wf(c) && WriteLegal(c, w) && !Plain(OnWrite(w))
    requires (c.life.closed ==> c.life.phase == Idle) && (c.life.phase == InWrite ==> !c.life.wantClose)
    ensures Fits(ApplyWrite(c, w).life, Follow(cfg, c, e, OnWrite(w)))
  {
    match w
    case Start(emitted) => StartFits(cfg, c, e, emitted);
    case H3Broke(rv, emitted) => BrokeFits(cfg, c, e, rv, emitted);
    case Packet(_, _, _, _) => SentFits(cfg, c, e, w);
    case Draining => assert Follow(cfg, c, e, OnWrite(w)) == e.(drained := true, phase := Idle);
    case Fatal => assert Follow(cfg, c, e, OnWrite(w)) == e.(over := true, phase := Idle);
    case Nothing(emitted) => DryFits(cfg, c, e, emitted);
  }

  // ---- the application -----------------------------------------------------

  lemma {:induction false} StopStory(cfg: Config, c: Conn, e: Ending, id: int, h3Rv: int, quicRv: int)
    ensures Follow(cfg, c, e, OnCall(StopSending(id, h3Rv, quicRv)))
            == if !Stoppable(c, id) then e
               else if e.http && h3Rv != 0 then Broken(Heard(e, true), h3Rv)
               else if quicRv != 0 then Given(Heard(e, e.http), LibError(quicRv))
               else Heard(e, e.http)
  {
    if Stoppable(c, id) && e.http && h3Rv != 0 {
      StopBreaks(cfg, c, e, id, h3Rv, quicRv);
    } else {
      StopGoesOn(cfg, c, e, id, h3Rv, quicRv);
    }
  }

  lemma {:induction false} StopBreaks(cfg: Config, c: Conn, e: Ending, id: int, h3Rv: int, quicRv: int)
    requires Stoppable(c, id) && e.http && h3Rv != 0
    ensures Follow(cfg, c, e, OnCall(StopSending(id, h3Rv, quicRv))) == Broken(Heard(e, true), h3Rv)
  {
    var step := OnCall(StopSending(id, h3Rv, quicRv));
    var abrupt := if e.abrupt.None? && !e.over then [Abrupt(H3Error(h3Rv))] else [];
    assert Reason(cfg, c, e.http, step) == Some(H3Error(h3Rv));
    assert Shown(cfg, c, e, step) == [H3Call] + [H3Fail(h3Rv)] + abrupt;
    assert e.out + Shown(cfg, c, e, step) == e.out + [H3Call] + [H3Fail(h3Rv)] + abrupt;
  }

  lemma {:induction false} StopGoesOn(cfg: Config, c: Conn, e: Ending, id: int, h3Rv: int, quicRv: int)
    requires !(Stoppable(c, id) && e.http && h3Rv != 0)
    ensures Follow(cfg, c, e, OnCall(StopSending(id, h3Rv, quicRv)))
            == if !Stoppable(c, id) then e
               else if quicRv != 0 then Given(Heard(e, e.http), LibError(quicRv))
               else Heard(e, e.http)
  {
  }

  lemma {:induction false} StopFits(cfg: Config, c: Conn, e: Ending, id: int, h3Rv: int, quicRv: int)
    requires Fits(c.life, e) && Wf(c)
    ensures Fits(StopReading(c, id, h3Rv, quicRv).life, Follow(cfg, c, e, OnCall(StopSending(id, h3Rv, quicRv))))
  {
    StopStory(cfg, c, e, id, h3Rv, quicRv);
    CallFits(c.life, e, e.http);
    if e.http && h3Rv != 0 {
      FailFits(CallH3(c.life), Heard(e, true), h3Rv);
    } else {
      ReasonFits(if e.http then CallH3(c.life) else c.life, Heard(e, e.http), LibError(quicRv));
    }
  }

  lemma {:induction false} CloseNowFits(cfg: Config, c: Conn, e: Ending, code: nat)
    requires Fits(c.life, e)
    ensures Fits(CloseNow(c.life, code), Follow(cfg, c, e, OnCall(CloseAbrupt(code))))
  {
    CloseNowStory(cfg, c, e, code);
    ReasonFits(c.life.(hasUd := false), e.(owned := false), AppError(code));
  }

  lemma {:induction false} CloseNowStory(cfg: Config, c: Conn, e: Ending, code: nat)
    ensures Follow(cfg, c, e, OnCall(CloseAbrupt(code))) == Given(e.(owned := false), AppError(code))
  {
  }

  lemma {:induction false} CloseCleanlyFits(cfg: Config, c: Conn, e: Ending, code: nat)
    requires Fits(c.life, e)
    ensures Fits(CloseCleanly(c.life, code), Follow(cfg, c, e, OnCall(CloseGraceful(code))))
  {
    assert Follow(cfg, c, e, OnCall(CloseGraceful(code)))
        == if e.abrupt.Some? || e.graceful.Some? || e.over then e
           else e.(graceful := Some(code), out := e.out + [Graceful(AppError(code))]);
  }

  lemma {:induction false} StepFits(cfg: Config, c: Conn, e: Ending, step: Step)
    requires Fits(c.life, e) && CloseInv(c.life) && Wf(c) && Legal(c, step)
    ensures Fits(Apply(cfg, c, step).life, Follow(cfg, c, e, step))
  {
    if Plain(step) {
      PlainFits(cfg, c, e, step);
    } else {
      OtherFits(cfg, c, e, step);
    }
  }

  lemma {:induction false} OtherFits(cfg: Config, c: Conn, e: Ending, step: Step)
    requires Fits(c.life, e) && Wf(c) && Legal(c, step) && !Plain(step)
    requires (c.life.closed ==> c.life.phase == Idle) && (c.life.phase == InWrite ==> !c.life.wantClose)
    ensures Fits(Apply(cfg, c, step).life, Follow(cfg, c, e, step))
  {
    match step
    case OnPacket(p) => PacketFits(cfg, c, e, p);
    case OnWrite(w) => WriteFits(cfg, c, e, w);
    case OnCall(a) => OtherCallFits(cfg, c, e, a);
    case ExpiryFailed => assert Follow(cfg, c, e, step) == e.(over := true);
  }

  lemma {:induction false} OtherCallFits(cfg: Config, c: Conn, e: Ending, a: AppStep)
    requires Fits(c.life, e) && Wf(c) && AppLegal(c, a) && !Plain(OnCall(a))
    ensures Fits(ApplyCall(c, a).life, Follow(cfg, c, e, OnCall(a)))
  {
    match a
    case StopSending(id, h3Rv, quicRv) => StopFits(cfg, c, e, id, h3Rv, quicRv);
    case CloseAbrupt(code) => CloseNowFits(cfg, c, e, code);
    case CloseGraceful(code) => CloseCleanlyFits(cfg, c, e, code);
  }

  // ---- every run -----------------------------------------------------------

  lemma {:induction false} RunFits(cfg: Config, c: Conn, e: Ending, steps: seq<Step>)
    requires Fits(c.life, e) && Inv(cfg, c) && Wf(c) && Run(cfg, c, steps).Some?
    ensures Fits(Run(cfg, c, steps).value.life, Story(cfg, c, e, steps))
    decreases |steps|
  {
    if steps != [] {
      StepFits(cfg, c, e, steps[0]);
      StepKeeps(cfg, c, steps[0]);
      RunFits(cfg, Apply(cfg, c, steps[0]), Follow(cfg, c, e, steps[0]), steps[1..]);
    }
  }

  /** After every run the flags, the close code and the whole record are those its steps
      tell: in particular one CONNECTION_CLOSE packet for every step that had to send it. */
  lemma {:induction false} RecordFollowsTheSteps(cfg: Config, adm: Admission, sendLeft: nat, steps: seq<Step>)
    requires Run(cfg, Accept(cfg, adm, sendLeft), steps).Some?
    ensures var start := Accept(cfg, adm, sendLeft);
            var l, e := Run(cfg, start, steps).value.life, Story(cfg, start, Begun(adm), steps);
            && l.trace == e.out && l.ccerr == Code(e.abrupt, e.graceful)
            && (l.wantClose <==> e.abrupt.Some?) && (l.wantGraceful <==> e.graceful.Some?)
            && (l.closed <==> e.over) && (l.draining <==> e.drained) && (l.h3 <==> e.http)
            && (l.hasUd <==> e.owned) && l.phase == e.phase
  {
    AcceptInv(cfg, adm, sendLeft);
    RunFits(cfg, Accept(cfg, adm, sendLeft), Begun(adm), steps);
  }

  /** A write call that finds an abrupt close pending, a write loop that runs dry with a
      graceful one pending, and a write loop in which nghttp3 breaks. */
  predicate MustClose(c: Conn, step: Step)
  {
    && !c.life.closed
    && match step
       case OnWrite(Start(emitted)) => emitted && c.life.wantClose
       case OnWrite(Nothing(emitted)) => emitted && c.life.wantGraceful
       case OnWrite(H3Broke(_, emitted)) => emitted && c.life.h3 && c.sendLeft > 0
       case _ => false
  }

  /** The record `trace` ends with its only CONNECTION_CLOSE, which carries `err`. */
  ghost predicate EndsWithClose(trace: seq<Effect>, err: CloseError)
  {
    && trace != [] && trace[|trace| - 1] == ClosePacket(err)
    && forall i | 0 <= i < |trace| - 1 :: !trace[i].ClosePacket?
  }

  /** No CONNECTION_CLOSE was recorded after the first `n` effects. */
  ghost predicate NoCloseSince(trace: seq<Effect>, n: nat)
  {
    forall i | n <= i < |trace| :: !trace[i].ClosePacket?
  }

  /** Exactly these steps put a CONNECTION_CLOSE on record: it is the last effect and the
      only such packet, it carries the close code, and the connection is then over. */
  lemma {:induction false} CloseIsSentWhenDue(cfg: Config, adm: Admission, sendLeft: nat, steps: seq<Step>,
                                              step: Step)
    requires Run(cfg, Accept(cfg, adm, sendLeft), steps).Some?
    requires Legal(Run(cfg, Accept(cfg, adm, sendLeft), steps).value, step)
    ensures var c := Run(cfg, Accept(cfg, adm, sendLeft), steps).value;
            var l := Apply(cfg, c, step).life;
            if MustClose(c, step) then l.closed && EndsWithClose(l.trace, l.ccerr)
            else NoCloseSince(l.trace, |c.life.trace|)
  {
    var start := Accept(cfg, adm, sendLeft);
    AcceptInv(cfg, adm, sendLeft);
    RunKeeps(cfg, start, steps);
    RunFits(cfg, start, Begun(adm), steps);
    var c, e := Run(cfg, start, steps).value, Story(cfg, start, Begun(adm), steps);
    StepKeeps(cfg, c, step);
    StepFits(cfg, c, e, step);
    InOrderMeans(Apply(cfg, c, step).life.trace);
    SentOrNot(cfg, c, e, step, Apply(cfg, c, step).life);
  }

  lemma {:induction false} SentOrNot(cfg: Config, c: Conn, e: Ending, step: Step, l: Life)
    requires Fits(c.life, e) && Fits(l, Follow(cfg, c, e, step)) && SilentAfterClose(l.trace)
    ensures if MustClose(c, step) then l.closed && EndsWithClose(l.trace, l.ccerr)
            else NoCloseSince(l.trace, |c.life.trace|)
  {
    DueWhen(c, e, step);
    if MustClose(c, step) {
      LastShown(cfg, c, e, step);
      assert Sends(l.trace[|l.trace| - 1]);
    } else {
      NoneShown(cfg, c, e, step);
    }
  }

  lemma {:induction false} DueWhen(c: Conn, e: Ending, step: Step)
    requires Fits(c.life, e)
    ensures MustClose(c, step) <==> CloseDue(e, c, step) && Emitted(step)
  {
  }

  lemma {:induction false} LastShown(cfg: Config, c: Conn, e: Ending, step: Step)
    requires CloseDue(e, c, step) && Emitted(step)
    ensures var next := Follow(cfg, c, e, step);
            && next.over && next.out != []
            && next.out[|next.out| - 1] == ClosePacket(Code(next.abrupt, next.graceful))
  {
    assert FirstGrace(e, step) == e.graceful;
    assert Packeted(cfg, c, e, step) == [ClosePacket(Code(FirstReason(cfg, c, e, step), e.graceful))];
  }

  lemma {:induction false} NoneShown(cfg: Config, c: Conn, e: Ending, step: Step)
    requires !(CloseDue(e, c, step) && Emitted(step))
    ensures forall i | |e.out| <= i < |Follow(cfg, c, e, step).out| :: !Follow(cfg, c, e, step).out[i].ClosePacket?
  {
    var shown := Shown(cfg, c, e, step);
    forall x | x in shown
      ensures !x.ClosePacket?
    {
      assert x in Called(c, e, step) || x in Noted(cfg, c, e, step) || x in Packeted(cfg, c, e, step);
    }
    forall i | |e.out| <= i < |e.out + shown|
      ensures !(e.out + shown)[i].ClosePacket?
    {
      assert (e.out + shown)[i] == shown[i - |e.out|];
    }
  }

  /** An abrupt close is scheduled by the first step that gives a reason, and by nothing
      else. */
  lemma {:induction false} ScheduledForTheFirstReason(cfg: Config, adm: Admission, sendLeft: nat, steps: seq<Step>,
                                                      step: Step)
    requires Run(cfg, Accept(cfg, adm, sendLeft), steps).Some?
    requires Legal(Run(cfg, Accept(cfg, adm, sendLeft), steps).value, step)
    ensures var c := Run(cfg, Accept(cfg, adm, sendLeft), steps).value;
            var l, reason := Apply(cfg, c, step).life, Reason(cfg, c, c.life.h3, step);
            && (l.wantClose <==> c.life.wantClose || (!c.life.closed && reason.Some?))
            && (!c.life.wantClose && l.wantClose ==> reason == Some(l.ccerr))
  {
    var start := Accept(cfg, adm, sendLeft);
    AcceptInv(cfg, adm, sendLeft);
    RunKeeps(cfg, start, steps);
    RunFits(cfg, start, Begun(adm), steps);
    StepFits(cfg, Run(cfg, start, steps).value, Story(cfg, start, Begun(adm), steps), step);
  }

  /** That reason stays the close code whatever happens next, and every CONNECTION_CLOSE
      sent from then on carries it. */
  lemma {:induction false} FirstReasonIsCarried(cfg: Config, adm: Admission, sendLeft: nat, steps: seq<Step>,
                                                step: Step, rest: seq<Step>)
    requires Run(cfg, Accept(cfg, adm, sendLeft), steps).Some?
    requires var c := Run(cfg, Accept(cfg, adm, sendLeft), steps).value;
             && Legal(c, step) && Run(cfg, Apply(cfg, c, step), rest).Some?
             && !c.life.wantClose && !c.life.closed && Reason(cfg, c, c.life.h3, step).Some?
    ensures var c := Run(cfg, Accept(cfg, adm, sendLeft), steps).value;
            var l, reason := Run(cfg, Apply(cfg, c, step), rest).value.life, Reason(cfg, c, c.life.h3, step);
            && l.wantClose && l.ccerr == reason.value
            && forall e | e in l.trace && e.ClosePacket? :: e.err == reason.value
  {
    var start := Accept(cfg, adm, sendLeft);
    ScheduledForTheFirstReason(cfg, adm, sendLeft, steps, step);
    AcceptInv(cfg, adm, sendLeft);
    RunKeeps(cfg, start, steps);
    var c := Run(cfg, start, steps).value;
    var d := Apply(cfg, c, step);
    StepKeeps(cfg, c, step);
    CloseFlagsAreMonotone(cfg, d, rest);
    RunKeeps(cfg, d, rest);
    var l := Run(cfg, d, rest).value.life;
    forall e | e in l.trace && e.ClosePacket?
      ensures e.err == l.ccerr
    {
      assert Explained(l, e);
    }
  }

  // ---- asking a peer to stop -----------------------------------------------

  /** What a request to stop a stream returns, the libraries answering zero or a negative
      error: 1 exactly when the stream is newly marked as stopped, 0 exactly when there
      was nothing to stop, and then nothing at all changed; an error leaves the stream
      unmarked and the connection ending, and nothing else ends it. */
  lemma {:induction false} StopResultMeans(c: Conn, id: int, h3Rv: int, quicRv: int)
    requires Wf(c) && h3Rv <= 0 && quicRv <= 0
    ensures var r, d := StopResult(c, id, h3Rv, quicRv), StopReading(c, id, h3Rv, quicRv);
            && (r == 1 <==> id in c.streams && !c.streams[id].stopSent && id in d.streams && d.streams[id].stopSent)
            && (r == 0 <==> !Stoppable(c, id)) && (r == 0 ==> d == c)
            && (r < 0 ==> d.streams == c.streams && (d.life.wantClose || d.life.closed))
            && (r >= 0 ==> d.life == c.life.(trace := d.life.trace))
            && (forall other | other != id && other in c.streams ::
                  other in d.streams && d.streams[other] == c.streams[other])
  {
  }
}
