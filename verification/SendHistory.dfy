/** The sending side of every stream of a connection against the run of the connection:
    the steps that concern a stream, taken from the run, decide what it hands out. */
module SendHistory {
  import opened Common
  import opened Connection
  import opened ConnectionRuns
  import S = StreamSend
  import H = StreamHistory

  // ---- the steps of one stream ---------------------------------------------

  /** ngtcp2 opens request stream `id`. */
  predicate OpensStream(step: Step, id: int)
  {
    step.OnPacket? && step.p.StreamOpen? && step.p.id == id && id % 4 == 0
  }

  /** What a packet is to the sending side of stream `id`. */
  function PacketOn(c: Conn, p: PacketStep, id: int): Option<S.TxStep>
  {
    match p
    case AckedStreamData(sid, n) => if sid == id && c.life.h3 then Some(S.Acknowledge(n)) else None
    case ExtendMaxStreamData(sid, n, _) => if sid == id then Some(S.ExtendWindow(n)) else None
    case WriteSideShut(sid) => if sid == id then Some(S.ShutWrite) else None
    case _ => None
  }

  /** The same for a round of the write loop, which offers a stream only when nghttp3 is
      there and the connection may send. */
  function RoundOn(c: Conn, w: WriteStep, id: int): Option<S.TxStep>
  {
    if !c.life.h3 || c.sendLeft == 0 then None
    else
      match w
      case ReadBody(sid) => if sid == id then Some(S.ReadBody) else None
      case Frame(sid, n) => if sid == id then Some(S.Frame(n)) else None
      case More(sid, n, fin) => if sid == id then Some(S.Transmit(n, fin)) else None
      case Packet(sid, n, fin, _) => if sid == id then Some(S.Transmit(n, fin)) else None
      case Blocked(sid) => if sid == id then Some(S.RefuseBlocked) else None
      case Shut(sid) => if sid == id then Some(S.RefuseShut) else None
      case _ => None
  }

  function CallOn(c: Conn, a: AppStep, id: int): Option<S.TxStep>
  {
    match a
    case Send(sid, call) => if sid == id && c.life.h3 then Some(call) else None
    case ResetStream(sid) => if sid == id then Some(S.ShutWrite) else None
    case _ => None
  }

  function OnStream(c: Conn, step: Step, id: int): Option<S.TxStep>
  {
    match step
    case OnPacket(p) => PacketOn(c, p, id)
    case OnWrite(w) => RoundOn(c, w, id)
    case OnCall(a) => CallOn(c, a, id)
    case ExpiryFailed => None
  }

  /** What is known of a stream: the window it was opened with, the steps that concerned
      it since, and the runs its reads handed to nghttp3. */
  datatype Told = Told(window: nat, steps: seq<S.TxStep>, runs: seq<bytes>)

  function Tell(c: Conn, t: Told, step: Step, id: int): Told
    requires Wf(c)
  {
    if OpensStream(step, id) then Told(step.p.window, [], [])
    else
      match OnStream(c, step, id)
      case None => t
      case Some(s) =>
        Told(t.window, t.steps + [s], t.runs + if id in c.streams then H.RunOf(c.streams[id].tx, s) else [])
  }

  function Story(cfg: Config, c: Conn, t: Told, steps: seq<Step>, id: int): Told
    requires Wf(c) && Run(cfg, c, steps).Some?
    decreases |steps|
  {
    if steps == [] then t
    else Story(cfg, Apply(cfg, c, steps[0]), Tell(c, t, steps[0], id), steps[1..], id)
  }

  // ---- one step ------------------------------------------------------------

  /** The stream takes the step, if one concerns it. When nghttp3 is gone or cannot be
      told, a wider window is only noted. */
  predicate Takes(t: S.Tx, s: Option<S.TxStep>, t': S.Tx)
    requires t.body.base <= t.body.handed
  {
    match s
    case None => t' == t
    case Some(x) => S.Legal(t, x) && (t' == S.Apply(t, x) || (x.ExtendWindow? && t' == Wider(t, x.n)))
  }

  function Wider(t: S.Tx, n: nat): S.Tx
  {
    t.(gate := t.gate.(window := t.gate.window + n))
  }

  lemma {:induction false} TxTakes(c: Conn, sid: int, s: S.TxStep, id: int)
    requires Wf(c) && TxLegal(c, sid, s) && id in c.streams
    ensures id in Tx(c, sid, s).streams
    ensures Takes(c.streams[id].tx, if sid == id then Some(s) else None, Tx(c, sid, s).streams[id].tx)
  {
  }

  lemma {:induction false} WidenTakes(c: Conn, sid: int, n: nat, rv: int, id: int)
    requires Wf(c) && id in c.streams
    ensures id in ExtendStream(c, sid, n, rv).streams
    ensures Takes(c.streams[id].tx, if sid == id then Some(S.ExtendWindow(n)) else None,
                  ExtendStream(c, sid, n, rv).streams[id].tx)
  {
    TxTakes(Call(c), sid, S.ExtendWindow(n), id);
  }

  lemma {:induction false} PacketTakes(cfg: Config, c: Conn, p: PacketStep, id: int)
    requires Wf(c) && PacketLegal(c, p) && id in ApplyPacket(cfg, c, p).streams && !OpensStream(OnPacket(p), id)
    ensures id in c.streams
    ensures Takes(c.streams[id].tx, PacketOn(c, p, id), ApplyPacket(cfg, c, p).streams[id].tx)
  {
    match p
    case AckedStreamData(sid, n) =>
      if c.life.h3 {
        assert id in c.streams;
        TxTakes(Call(c), sid, S.Acknowledge(n), id);
      }
    case ExtendMaxStreamData(sid, n, rv) =>
      assert id in c.streams;
      WidenTakes(c, sid, n, rv, id);
    case WriteSideShut(sid) =>
      assert id in c.streams;
      TxTakes(c, sid, S.ShutWrite, id);
    case _ =>
  }

  lemma {:induction false} WriteTakes(c: Conn, w: WriteStep, id: int)
    requires Wf(c) && WriteLegal(c, w) && id in c.streams && id >= 0
    ensures id in ApplyWrite(c, w).streams
    ensures Takes(c.streams[id].tx, RoundOn(c, w, id), ApplyWrite(c, w).streams[id].tx)
  {
    match w
    case ReadBody(sid) => AskedTakes(c, sid, S.ReadBody, id);
    case Frame(sid, n) => AskedTakes(c, sid, S.Frame(n), id);
    case More(sid, n, fin) => TakenTakes(c, sid, n, fin, id);
    case Packet(sid, n, fin, _) => TakenTakes(c, sid, n, fin, id);
    case Blocked(sid) => ParkedTakes(c, sid, S.RefuseBlocked, id);
    case Shut(sid) => ParkedTakes(c, sid, S.RefuseShut, id);
    case _ =>
  }

  lemma {:induction false} AskedTakes(c: Conn, sid: int, s: S.TxStep, id: int)
    requires Wf(c) && TxLegal(c, OfferedId(c, sid), s) && id in c.streams
    ensures id in Asked(c, sid, s).streams
    ensures Takes(c.streams[id].tx, if sid == id && MayOffer(c) then Some(s) else None, Asked(c, sid, s).streams[id].tx)
  {
    if MayOffer(c) {
      TxTakes(Call(c), sid, s, id);
    }
  }

  lemma {:induction false} ParkedTakes(c: Conn, sid: int, s: S.TxStep, id: int)
    requires Wf(c) && TxLegal(c, OfferedId(c, sid), s) && id in c.streams && id >= 0
    ensures id in Parked(c, sid, s).streams
    ensures Takes(c.streams[id].tx, if sid == id && MayOffer(c) then Some(s) else None,
                  Parked(c, sid, s).streams[id].tx)
  {
    if MayOffer(c) && sid >= 0 {
      TxTakes(Call(c), sid, s, id);
    }
  }

  lemma {:induction false} TakenTakes(c: Conn, sid: int, n: nat, fin: bool, id: int)
    requires Wf(c) && TakeLegal(c, sid, n, fin) && id in c.streams && id >= 0
    ensures id in Taken(c, sid, n, fin).streams
    ensures Takes(c.streams[id].tx, if sid == id && MayOffer(c) then Some(S.Transmit(n, fin)) else None,
                  Taken(c, sid, n, fin).streams[id].tx)
  {
    var d := c.(life := TakenLife(c, sid), sendLeft := c.sendLeft - n);
    TxTakes(d, OfferedId(c, sid), S.Transmit(n, fin), id);
  }

  lemma {:induction false} CallTakes(c: Conn, a: AppStep, id: int)
    requires Wf(c) && AppLegal(c, a) && id in c.streams
    ensures id in ApplyCall(c, a).streams
    ensures Takes(c.streams[id].tx, CallOn(c, a, id), ApplyCall(c, a).streams[id].tx)
  {
    match a
    case Send(sid, call) => SendTakes(c, sid, call, id);
    case ResetStream(sid) => TxTakes(c, sid, S.ShutWrite, id);
    case StopSending(sid, h3Rv, quicRv) => assert StopReading(c, sid, h3Rv, quicRv).streams[id].tx == c.streams[id].tx;
    case _ =>
  }

  /** A call that does not go on to nghttp3 changes nothing anyway. */
  lemma {:induction false} SendTakes(c: Conn, sid: int, call: S.TxStep, id: int)
    requires Wf(c) && IsAppCall(call) && id in c.streams
    ensures id in SendCall(c, sid, call).streams
    ensures Takes(c.streams[id].tx, if sid == id && c.life.h3 then Some(call) else None,
                  SendCall(c, sid, call).streams[id].tx)
  {
    if sid in c.streams && c.life.h3 {
      if ReachesH3(c.streams[sid].tx, call) {
        TxTakes(Call(c), sid, call, id);
      } else {
        assert S.Apply(c.streams[sid].tx, call) == c.streams[sid].tx;
      }
    }
  }

  lemma {:induction false} StepTakes(cfg: Config, c: Conn, step: Step, id: int)
    requires Wf(c) && Legal(c, step) && (id in c.streams ==> id >= 0)
    requires id in Apply(cfg, c, step).streams && !OpensStream(step, id)
    ensures id in c.streams && Takes(c.streams[id].tx, OnStream(c, step, id), Apply(cfg, c, step).streams[id].tx)
  {
    match step
    case OnPacket(p) => PacketTakes(cfg, c, p, id);
    case OnWrite(w) =>
      assert id in c.streams;
      WriteTakes(c, w, id);
    case OnCall(a) =>
      assert id in c.streams;
      CallTakes(c, a, id);
    case ExpiryFailed =>
  }

  /** Once HTTP/3 is over on a connection, it stays over. */
  lemma {:induction false} LiveBefore(cfg: Config, c: Conn, step: Step)
    requires CloseInv(c.life) && Wf(c) && Legal(c, step) && Live(Apply(cfg, c, step).life)
    ensures Live(c.life)
  {
    StepAdvances(cfg, c, step);
  }

  /** While HTTP/3 runs, a wider window always wakes the stream. */
  lemma {:induction false} LiveTakes(cfg: Config, c: Conn, step: Step, id: int)
    requires Inv(cfg, c) && Wf(c) && Legal(c, step) && Live(Apply(cfg, c, step).life)
    requires id in Apply(cfg, c, step).streams && !OpensStream(step, id)
    ensures id in c.streams && id >= 0
    ensures var s := OnStream(c, step, id);
            s.Some? ==> S.Legal(c.streams[id].tx, s.value)
                        && Apply(cfg, c, step).streams[id].tx == S.Apply(c.streams[id].tx, s.value)
  {
    assert id in c.streams ==> SendOk(c, id);
    StepTakes(cfg, c, step, id);
    LiveBefore(cfg, c, step);
    if step.OnPacket? && step.p.ExtendMaxStreamData? && step.p.id == id {
      LiveWidens(cfg, c, step.p, id);
    }
  }

  lemma {:induction false} LiveWidens(cfg: Config, c: Conn, p: PacketStep, id: int)
    requires Wf(c) && PacketLegal(c, p) && p.ExtendMaxStreamData? && id in c.streams && SendOk(c, id) && Live(c.life)
    requires Live(ApplyPacket(cfg, c, p).life) && p.id == id
    ensures var r := ApplyPacket(cfg, c, p);
            id in r.streams && r.streams[id].tx == S.Apply(c.streams[id].tx, S.ExtendWindow(p.n))
  {
    if !c.life.h3 {
      assert !c.streams[id].tx.gate.blocked;
    } else {
      assert p.rv == 0;
    }
  }

  // ---- every run -----------------------------------------------------------

  /** Stream `t` is what the told steps make of it, and while HTTP/3 runs it is a run of
      a stream by itself. */
  ghost predicate Known(t: S.Tx, told: Told, live: bool)
  {
    && H.Recorded(t, told.window, told.steps, told.runs)
    && (live ==> Executed(t, told))
  }

  ghost predicate Executed(t: S.Tx, told: Told)
  {
    S.Exec(told.window, told.steps) == Some(t) && H.Runs(told.window, told.steps) == told.runs
  }

  ghost predicate AllKnown(c: Conn, told: Told, id: int)
  {
    id in c.streams ==> Known(c.streams[id].tx, told, Live(c.life))
  }

  lemma {:induction false} ExecutedMore(t: S.Tx, told: Told, s: S.TxStep)
    requires Executed(t, told) && t.body.base <= t.body.handed && S.Legal(t, s)
    ensures Executed(S.Apply(t, s), Told(told.window, told.steps + [s], told.runs + H.RunOf(t, s)))
  {
    H.OneMore(told.steps, s);
  }

  lemma {:induction false} RecordedMore(t: S.Tx, told: Told, s: S.TxStep, t': S.Tx)
    requires H.Recorded(t, told.window, told.steps, told.runs)
    requires t.body.base <= t.body.handed && t.acked <= t.body.end && Takes(t, Some(s), t')
    ensures H.Recorded(t', told.window, told.steps + [s], told.runs + H.RunOf(t, s))
  {
    if t' == S.Apply(t, s) {
      H.StepRecords(t, told.window, told.steps, told.runs, s);
    } else {
      H.WidenRecords(t, told.window, told.steps, told.runs, s.n);
      assert told.runs + [] == told.runs;
    }
  }

  lemma {:induction false} StepKnown(cfg: Config, c: Conn, told: Told, step: Step, id: int)
    requires AllKnown(c, told, id) && Inv(cfg, c) && Wf(c) && Legal(c, step)
    ensures AllKnown(Apply(cfg, c, step), Tell(c, told, step, id), id)
  {
    var d := Apply(cfg, c, step);
    if id in d.streams {
      if OpensStream(step, id) {
        H.NewRecords(step.p.window);
        assert d.streams[id].tx == S.NewTx(step.p.window);
      } else {
        assert id in c.streams ==> SendOk(c, id);
        StepTakes(cfg, c, step, id);
        assert Live(d.life) ==> Live(c.life) by {
          if Live(d.life) {
            LiveBefore(cfg, c, step);
          }
        }
        StreamKnown(cfg, c, told, step, id);
      }
    }
  }

  lemma {:induction false} StreamKnown(cfg: Config, c: Conn, told: Told, step: Step, id: int)
    requires id in c.streams && Known(c.streams[id].tx, told, Live(c.life))
    requires Inv(cfg, c) && Wf(c) && Legal(c, step) && SendOk(c, id) && !OpensStream(step, id)
    requires var d := Apply(cfg, c, step);
             && id in d.streams && Takes(c.streams[id].tx, OnStream(c, step, id), d.streams[id].tx)
             && (Live(d.life) ==> Live(c.life))
    ensures var d := Apply(cfg, c, step);
            Known(d.streams[id].tx, Tell(c, told, step, id), Live(d.life))
  {
    var d, t := Apply(cfg, c, step), c.streams[id].tx;
    match OnStream(c, step, id)
    case None =>
    case Some(s) =>
      RecordedMore(t, told, s, d.streams[id].tx);
      if Live(d.life) {
        LiveTakes(cfg, c, step, id);
        ExecutedMore(t, told, s);
      }
  }

  lemma {:induction false} RunKnown(cfg: Config, c: Conn, told: Told, steps: seq<Step>, id: int)
    requires AllKnown(c, told, id) && Inv(cfg, c) && Wf(c) && Run(cfg, c, steps).Some?
    ensures AllKnown(Run(cfg, c, steps).value, Story(cfg, c, told, steps, id), id)
    decreases |steps|
  {
    if steps != [] {
      StepKnown(cfg, c, told, steps[0], id);
      StepKeeps(cfg, c, steps[0]);
      RunKnown(cfg, Apply(cfg, c, steps[0]), Tell(c, told, steps[0], id), steps[1..], id);
    }
  }

  /** In every reachable connection, whatever else goes on: what the reads of a tracked
      stream handed to nghttp3 is the first `handed` bytes of what the application wrote
      on that stream, piece by piece; its queue ends where that ends; and it remembers
      the head, the trailers, the end of the body and the shut write side exactly as they
      happened to it. */
  lemma {:induction false} StreamsHandOutWhatWasWritten(cfg: Config, adm: Admission, sendLeft: nat, steps: seq<Step>,
                                                        id: int)
    requires Run(cfg, Accept(cfg, adm, sendLeft), steps).Some?
    requires id in Run(cfg, Accept(cfg, adm, sendLeft), steps).value.streams
    ensures var c := Accept(cfg, adm, sendLeft);
            var t, told := Run(cfg, c, steps).value.streams[id].tx, Story(cfg, c, Told(0, [], []), steps, id);
            && t.body.end == |H.Written(told.steps)| && t.body.handed <= t.body.end
            && Flatten(told.runs) == H.Written(told.steps)[..t.body.handed] && told.runs <= H.Pieces(told.steps)
            && (t.hasTrailers <==> H.Trailers(told.steps)) && (t.body.fin <==> H.Finished(told.steps))
            && (t.headSubmitted <==> H.Submitted(told.steps)) && (t.accepted <==> H.Taken(told.steps))
            && (t.gate.shut <==> H.Closed(told.steps))
            && t.acked == H.Total(told.steps, H.AckedBy)
            && t.gate.window + H.Total(told.steps, H.SentBy) == told.window + H.Total(told.steps, H.WidenedBy)
  {
    var c := Accept(cfg, adm, sendLeft);
    AcceptInv(cfg, adm, sendLeft);
    RunKnown(cfg, c, Told(0, [], []), steps, id);
    var t, told := Run(cfg, c, steps).value.streams[id].tx, Story(cfg, c, Told(0, [], []), steps, id);
    H.RecordedBytes(t, told.window, told.steps, told.runs);
  }

  /** While HTTP/3 runs, a tracked stream is exactly a run of the stream by itself over
      the steps that concerned it, so that everything that holds of every such run holds
      of every stream of the connection. */
  lemma {:induction false} LiveStreamsRunByThemselves(cfg: Config, adm: Admission, sendLeft: nat, steps: seq<Step>,
                                                      id: int)
    requires Run(cfg, Accept(cfg, adm, sendLeft), steps).Some?
    requires var c := Run(cfg, Accept(cfg, adm, sendLeft), steps).value; id in c.streams && Live(c.life)
    ensures var c := Accept(cfg, adm, sendLeft);
            var told := Story(cfg, c, Told(0, [], []), steps, id);
            && S.Exec(told.window, told.steps) == Some(Run(cfg, c, steps).value.streams[id].tx)
            && H.Runs(told.window, told.steps) == told.runs
  {
    AcceptInv(cfg, adm, sendLeft);
    RunKnown(cfg, Accept(cfg, adm, sendLeft), Told(0, [], []), steps, id);
  }

  // ---- which streams are tracked -------------------------------------------

  /** nghttp3 drops the stream, and the shim's record with it. */
  predicate DropsStream(c: Conn, step: Step, id: int)
  {
    step.OnPacket? && step.p.StreamClose? && step.p.id == id && step.p.known && c.life.h3
  }

  function Tracked(cfg: Config, c: Conn, was: bool, steps: seq<Step>, id: int): bool
    requires Wf(c) && Run(cfg, c, steps).Some?
    decreases |steps|
  {
    if steps == [] then was
    else
      Tracked(cfg, Apply(cfg, c, steps[0]),
              OpensStream(steps[0], id) || (was && !DropsStream(c, steps[0], id)), steps[1..], id)
  }

  lemma {:induction false} PacketTracks(cfg: Config, c: Conn, p: PacketStep, id: int)
    requires Wf(c) && PacketLegal(c, p)
    ensures id in ApplyPacket(cfg, c, p).streams
            <==> OpensStream(OnPacket(p), id) || (id in c.streams && !DropsStream(c, OnPacket(p), id))
  {
  }

  lemma {:induction false} StepTracks(cfg: Config, c: Conn, step: Step, id: int)
    requires Wf(c) && Legal(c, step)
    ensures id in Apply(cfg, c, step).streams
            <==> OpensStream(step, id) || (id in c.streams && !DropsStream(c, step, id))
  {
    match step
    case OnPacket(p) => PacketTracks(cfg, c, p, id);
    case OnWrite(w) => assert id in ApplyWrite(c, w).streams <==> id in c.streams;
    case OnCall(a) => assert id in ApplyCall(c, a).streams <==> id in c.streams;
    case ExpiryFailed =>
  }

  lemma {:induction false} RunTracks(cfg: Config, c: Conn, steps: seq<Step>, id: int)
    requires Wf(c) && Run(cfg, c, steps).Some?
    ensures id in Run(cfg, c, steps).value.streams <==> Tracked(cfg, c, id in c.streams, steps, id)
    decreases |steps|
  {
    if steps != [] {
      StepTracks(cfg, c, steps[0], id);
      RunTracks(cfg, Apply(cfg, c, steps[0]), steps[1..], id);
    }
  }

  /** The shim keeps a record of exactly the request streams that were opened and that
      nghttp3 has not dropped since. */
  lemma {:induction false} TrackedStreamsFollowTheSteps(cfg: Config, adm: Admission, sendLeft: nat, steps: seq<Step>,
                                                        id: int)
    requires Run(cfg, Accept(cfg, adm, sendLeft), steps).Some?
    ensures id in Run(cfg, Accept(cfg, adm, sendLeft), steps).value.streams
            <==> Tracked(cfg, Accept(cfg, adm, sendLeft), false, steps, id)
  {
    RunTracks(cfg, Accept(cfg, adm, sendLeft), steps, id);
  }
}
