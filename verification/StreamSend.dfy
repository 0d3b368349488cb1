/** The sending side of one request stream: the response body source nghttp3 pulls
    from, the two ways the stream is parked, and the paths that wake it up. */
module StreamSend {
  import opened Common
  import opened ResponseBody

  // ---- the body source -----------------------------------------------------

  /** One answer of the body source: a run of bytes (possibly flagged as the last),
      a bare end of body, or "nothing yet". */
  datatype ReadResult =
    | DataRun(run: bytes, eof: bool, noEndStream: bool)
    | EndOfBody(noEndStream: bool)
    | WouldBlock

  function ReadData(b: BodyState, hasTrailers: bool): (r: (BodyState, ReadResult))
    requires b.base <= b.handed
  {
    var (b', out) := Next(b);
    match out
    case Some(run) =>
      var eof := b'.fin && b'.handed >= b'.end;
      (b', DataRun(run, eof, eof && hasTrailers))
    case None =>
      if b'.fin then (b', EndOfBody(hasTrailers)) else (b', WouldBlock)
  }

  predicate SignalsEof(r: ReadResult)
  {
    r.EndOfBody? || (r.DataRun? && r.eof)
  }

  /** What one read of a well-formed queue answers, in terms of the pushed chunks. */
  lemma {:induction false} ReadDataMeans(b: BodyState, chunks: seq<bytes>, freed: nat, given: nat, hasTrailers: bool)
    requires Represents(b, chunks, freed, given)
    ensures b.base <= b.handed
    ensures var (b', r) := ReadData(b, hasTrailers);
            if given < |chunks| then
              var last := b.fin && given + 1 == |chunks|;
              r == DataRun(chunks[given], last, last && hasTrailers) && Represents(b', chunks, freed, given + 1)
            else
              b' == b && r == if b.fin then EndOfBody(hasTrailers) else WouldBlock
  {
    NextRepresents(b, chunks, freed, given);
    if given < |chunks| {
      OffsetMono(chunks, given + 1, |chunks|);
    }
  }

  // ---- the stream ----------------------------------------------------------

  /** body, acked, headSubmitted, hasTrailers: the shim's own record.
      accepted, eof, readBlocked, outq: what nghttp3 holds -- whether it took the
      response, was told the body ended, parked the stream on "nothing yet", and how
      many bytes it holds that ngtcp2 has not taken. ended: ngtcp2 took the end of the
      stream. */
  datatype Tx = Tx(body: BodyState, acked: nat, headSubmitted: bool, hasTrailers: bool,
                   accepted: bool, eof: bool, readBlocked: bool, outq: nat, ended: bool, gate: Gate)

  /** blocked: nghttp3 parked the stream on flow control. window, shut: ngtcp2's send
      window left and whether the write side is shut. */
  datatype Gate = Gate(blocked: bool, window: nat, shut: bool)

  function NewTx(window: nat): Tx
  {
    Tx(EMPTY_BODY, 0, false, false, false, false, false, 0, false, Gate(false, window, false))
  }

  /** Everything that happens to the sending side of a stream.
      SubmitResponse, SubmitHead, WriteBody, FinishBody, SubmitTrailers are the
      application's calls (`ok`: nghttp3 accepted the submission); the others are
      nghttp3 and ngtcp2: a read of the body source, `n` bytes of HTTP/3 framing
      produced, `n` body bytes acknowledged, `n` bytes taken into a packet (`fin`: and
      the end of the stream with them), a refusal for flow control or a shut write
      side, `n` bytes of new window, and the write side shutting. */
  datatype TxStep =
    | SubmitResponse(data: bytes, fin: bool, ok: bool)
    | SubmitHead(ok: bool)
    | WriteBody(data: bytes)
    | FinishBody
    | SubmitTrailers(fields: nat, ok: bool)
    | ReadBody
    | Frame(n: nat)
    | Acknowledge(n: nat)
    | Transmit(n: nat, fin: bool)
    | RefuseBlocked
    | RefuseShut
    | ExtendWindow(n: nat)
    | ShutWrite

  /** nghttp3 asks the source only for a response it took, whose end it has not seen,
      and that is not parked. */
  predicate Readable(t: Tx)
  {
    t.accepted && !t.eof && !t.readBlocked && !t.gate.blocked
  }

  /** The stream is in nghttp3's schedule: the next writev can offer it, for bytes it
      holds, for bytes it can still read, or for the end of the stream alone. */
  predicate Offered(t: Tx)
  {
    !t.gate.blocked && (t.outq > 0 || Readable(t) || (t.eof && !t.ended))
  }

  /** What nghttp3 and ngtcp2 guarantee: acknowledgements cover only handed-out
      bytes; ngtcp2 takes at most the window, and the end only with the last byte of a
      body that ended; it refuses an offered stream for flow control only when that
      stream's window is used up. */
  predicate Legal(t: Tx, step: TxStep)
  {
    match step
    case ReadBody => Readable(t)
    case Frame(_) => t.accepted
    case Acknowledge(n) => t.acked + n <= t.body.handed
    case Transmit(n, fin) => n <= t.outq && n <= t.gate.window && (fin ==> t.eof && n == t.outq)
    case RefuseBlocked => t.gate.window == 0
    case RefuseShut => t.gate.shut
    case _ => true
  }

  /** The one-shot response: the whole body at once, finished or to be continued. */
  function Respond(t: Tx, data: bytes, fin: bool, ok: bool): (r: Tx)
    ensures r.body.base == t.body.base && r.body.handed == t.body.handed
  {
    t.(headSubmitted := true, body := Push(t.body, data).(fin := fin), accepted := ok)
  }

  /** `n` more body bytes are acknowledged: the chunks they complete are released. */
  function Acked(t: Tx, n: nat): (r: Tx)
    requires t.body.base <= t.body.handed && t.acked + n <= t.body.handed
    ensures r.body.base <= r.body.handed
  {
    t.(acked := t.acked + n, body := Ack(t.body, t.acked + n))
  }

  /** nghttp3 reads the source once and acts on the answer. */
  function TakeFromSource(t: Tx): (r: Tx)
    requires t.body.base <= t.body.handed
    ensures r.body.base <= r.body.handed
  {
    var (b, answer) := ReadData(t.body, t.hasTrailers);
    t.(body := b,
       eof := SignalsEof(answer),
       readBlocked := answer.WouldBlock?,
       outq := t.outq + if answer.DataRun? then |answer.run| else 0)
  }

  function Apply(t: Tx, step: TxStep): (r: Tx)
    requires t.body.base <= t.body.handed
    requires Legal(t, step)
    ensures r.body.base <= r.body.handed
  {
    match step
    case SubmitResponse(data, fin, ok) => if t.headSubmitted then t else Respond(t, data, fin, ok)
    case SubmitHead(ok) =>
      if t.headSubmitted then t else t.(headSubmitted := true, accepted := ok)
    case WriteBody(data) =>
      t.(body := Push(t.body, data), readBlocked := false)
    case FinishBody =>
      t.(body := t.body.(fin := true), readBlocked := false)
    case SubmitTrailers(fields, ok) =>
      if !t.headSubmitted || fields == 0 || !ok then t else t.(hasTrailers := true)
    case ReadBody => TakeFromSource(t)
    case Frame(n) => t.(outq := t.outq + n)
    case Acknowledge(n) => Acked(t, n)
    case Transmit(n, fin) =>
      t.(outq := t.outq - n, ended := t.ended || fin, gate := t.gate.(window := t.gate.window - n))
    case RefuseBlocked => t.(gate := t.gate.(blocked := true))
    case RefuseShut => t.(gate := t.gate.(blocked := true))
    case ExtendWindow(n) => t.(gate := t.gate.(window := t.gate.window + n, blocked := false))
    case ShutWrite => t.(gate := t.gate.(shut := true))
  }

  // ---- what every step keeps -----------------------------------------------

  ghost predicate WellFormed(b: BodyState)
  {
    exists chunks: seq<bytes>, freed: nat, given: nat :: Represents(b, chunks, freed, given)
  }

  /** The queue is sound, and a stream parked on "nothing yet" has everything handed
      out and an open body. */
  ghost predicate TxCore(t: Tx)
  {
    && WellFormed(t.body)
    && t.body.base <= t.acked <= t.body.handed <= t.body.end
    && (t.accepted ==> t.headSubmitted)
    && (t.eof ==> t.accepted && t.body.fin) && (t.ended ==> t.eof)
    && (t.readBlocked ==> t.accepted && !t.eof && t.body.handed == t.body.end && !t.body.fin)
  }

  /** A stream parked on flow control has no window, or no write side. */
  predicate Justified(g: Gate)
  {
    g.blocked ==> g.window == 0 || g.shut
  }

  ghost predicate TxInv(t: Tx)
  {
    TxCore(t) && Justified(t.gate)
  }

  lemma {:induction false} WellFormedBounds(b: BodyState)
    requires WellFormed(b)
    ensures b.base <= b.handed <= b.end
  {
    var chunks, freed: nat, given: nat :| Represents(b, chunks, freed, given);
    OffsetMono(chunks, freed, given);
    OffsetMono(chunks, given, |chunks|);
  }

  lemma {:induction false} NewTxInv(window: nat)
    ensures TxInv(NewTx(window))
  {
    assert Represents(EMPTY_BODY, [], 0, 0);
  }

  lemma {:induction false} PushWellFormed(b: BodyState, d: bytes, fin: bool)
    requires WellFormed(b)
    ensures WellFormed(Push(b, d)) && WellFormed(Push(b, d).(fin := fin)) && WellFormed(b.(fin := fin))
  {
    var chunks, freed: nat, given: nat :| Represents(b, chunks, freed, given);
    PushRepresents(b, chunks, freed, given, d);
    var chunks' := if d == [] then chunks else chunks + [d];
    assert Represents(Push(b, d).(fin := fin), chunks', freed, given);
    assert Represents(b.(fin := fin), chunks, freed, given);
  }

  /** What one read does to the offsets. */
  predicate ReadMoves(b: BodyState, b': BodyState, r: ReadResult)
  {
    && b'.base == b.base && b'.end == b.end && b'.fin == b.fin
    && b.handed <= b'.handed
    && (r.DataRun? <==> b.handed < b'.handed)
    && (r.DataRun? <==> b.handed < b.end)
    && (SignalsEof(r) <==> b.fin && b'.handed == b'.end)
    && (r.WouldBlock? <==> !b.fin && b.handed == b.end)
  }

  lemma {:induction false} ReadOffsets(b: BodyState, chunks: seq<bytes>, freed: nat, given: nat, hasTrailers: bool)
    requires Represents(b, chunks, freed, given)
    ensures b.base <= b.handed
    ensures ReadMoves(b, ReadData(b, hasTrailers).0, ReadData(b, hasTrailers).1)
  {
    ReadDataMeans(b, chunks, freed, given, hasTrailers);
    OffsetMono(chunks, given, |chunks|);
    if given < |chunks| {
      OffsetMono(chunks, given, given + 1);
      OffsetMono(chunks, given + 1, |chunks|);
    }
  }

  lemma {:induction false} ReadWellFormed(b: BodyState, hasTrailers: bool)
    requires WellFormed(b)
    ensures b.base <= b.handed
    ensures var (b', r) := ReadData(b, hasTrailers); WellFormed(b') && ReadMoves(b, b', r)
  {
    var chunks, freed: nat, given: nat :| Represents(b, chunks, freed, given);
    ReadDataMeans(b, chunks, freed, given, hasTrailers);
    ReadOffsets(b, chunks, freed, given, hasTrailers);
  }

  lemma {:induction false} AckWellFormed(b: BodyState, acked: nat)
    requires WellFormed(b) && acked <= b.handed
    ensures WellFormed(Ack(b, acked))
  {
    var chunks, freed: nat, given: nat :| Represents(b, chunks, freed, given);
    var stop := AckRepresents(b, chunks, freed, given, acked);
  }

  lemma {:induction false} ReadKeeps(t: Tx)
    requires TxCore(t) && Readable(t)
    ensures TxCore(TakeFromSource(t))
  {
    ReadWellFormed(t.body, t.hasTrailers);
    WellFormedBounds(TakeFromSource(t).body);
  }

  lemma {:induction false} AcknowledgeKeeps(t: Tx, n: nat)
    requires TxCore(t) && t.acked + n <= t.body.handed
    ensures TxCore(Acked(t, n))
  {
    AckWellFormed(t.body, t.acked + n);
    WellFormedBounds(Acked(t, n).body);
  }

  lemma {:induction false} RespondKeeps(t: Tx, data: bytes, fin: bool, ok: bool)
    requires TxCore(t) && !t.headSubmitted
    ensures TxCore(Respond(t, data, fin, ok))
  {
    PushWellFormed(t.body, data, fin);
  }

  lemma {:induction false} WriteKeeps(t: Tx, data: bytes)
    requires TxCore(t)
    ensures TxCore(t.(body := Push(t.body, data), readBlocked := false))
    ensures TxCore(t.(body := t.body.(fin := true), readBlocked := false))
  {
    PushWellFormed(t.body, data, true);
  }

  lemma {:induction false} ApplyKeepsCore(t: Tx, step: TxStep)
    requires TxCore(t) && Legal(t, step)
    ensures TxCore(Apply(t, step))
  {
    match step
    case SubmitResponse(data, fin, ok) =>
      if !t.headSubmitted {
        RespondKeeps(t, data, fin, ok);
      }
    case WriteBody(data) => WriteKeeps(t, data);
    case FinishBody => WriteKeeps(t, []);
    case ReadBody => ReadKeeps(t);
    case Acknowledge(n) => AcknowledgeKeeps(t, n);
    case _ => QuietKeeps(t, step);
  }

  /** The steps that leave the queue and the reading side alone. */
  lemma {:induction false} QuietKeeps(t: Tx, step: TxStep)
    requires TxCore(t) && Legal(t, step)
    requires !step.SubmitResponse? && !step.WriteBody? && !step.FinishBody? && !step.ReadBody? && !step.Acknowledge?
    ensures TxCore(Apply(t, step))
  {
    assert Apply(t, step).body == t.body;
  }

  lemma {:induction false} ApplyKeepsParking(t: Tx, step: TxStep)
    requires t.body.base <= t.body.handed && Legal(t, step) && Justified(t.gate)
    ensures Justified(Apply(t, step).gate)
  {
    match step
    case Transmit(_, _) =>
    case RefuseBlocked =>
    case RefuseShut =>
    case ExtendWindow(_) =>
    case ShutWrite =>
    case ReadBody => assert TakeFromSource(t).gate == t.gate;
    case Acknowledge(n) => assert Acked(t, n).gate == t.gate;
    case _ => assert Apply(t, step).gate == t.gate;
  }

  /** Every step keeps the queue sound and both reasons for parking justified. */
  lemma {:induction false} ApplyKeeps(t: Tx, step: TxStep)
    requires TxCore(t) && Legal(t, step)
    ensures TxCore(Apply(t, step))
    ensures Justified(t.gate) ==> Justified(Apply(t, step).gate)
  {
    ApplyKeepsCore(t, step);
    if Justified(t.gate) {
      ApplyKeepsParking(t, step);
    }
  }

  // ---- no lost wake-up -----------------------------------------------------

  /** Something of an accepted response still has to go out: bytes nghttp3 holds,
      bytes it has not read, or the end of the stream. */
  predicate Unsent(t: Tx)
  {
    t.accepted && (t.outq > 0 || t.body.handed < t.body.end || (t.body.fin && !t.ended))
  }

  /** Bytes queued behind the end of the body nghttp3 was told of. */
  predicate Stranded(t: Tx)
  {
    t.eof && t.body.handed < t.body.end
  }

  /** A stream with an open window that has something to send is offered to the
      scheduler, unless all it has left are stranded bytes. */
  lemma {:induction false} OfferedUnlessStranded(t: Tx)
    requires TxInv(t) && Unsent(t) && t.gate.window > 0 && !t.gate.shut
    ensures Offered(t) || (Stranded(t) && t.outq == 0 && t.ended)
  {
  }

  // ---- runs ----------------------------------------------------------------

  /** The steps in order from `t`; `None` if a step is not one the libraries can take. */
  function After(t: Tx, steps: seq<TxStep>): (r: Option<Tx>)
    requires t.body.base <= t.body.handed
    ensures r.Some? ==> r.value.body.base <= r.value.body.handed
  {
    if steps == [] then Some(t)
    else
      match After(t, steps[..|steps| - 1])
      case None => None
      case Some(now) =>
        var step := steps[|steps| - 1];
        if Legal(now, step) then Some(Apply(now, step)) else None
  }

  lemma {:induction false} AfterOneMore(t: Tx, steps: seq<TxStep>, step: TxStep)
    requires t.body.base <= t.body.handed && After(t, steps).Some? && Legal(After(t, steps).value, step)
    ensures After(t, steps + [step]) == Some(Apply(After(t, steps).value, step))
  {
    assert (steps + [step])[..|steps|] == steps;
  }

  lemma {:induction false} AfterConcat(t: Tx, steps: seq<TxStep>, more: seq<TxStep>)
    requires t.body.base <= t.body.handed && After(t, steps).Some?
    ensures After(t, steps + more) == After(After(t, steps).value, more)
  {
    if more == [] {
      assert steps + more == steps;
    } else {
      AfterConcat(t, steps, more[..|more| - 1]);
      assert (steps + more)[..|steps + more| - 1] == steps + more[..|more| - 1];
    }
  }

  /** A run: the steps from a fresh stream. */
  function Exec(window: nat, steps: seq<TxStep>): (r: Option<Tx>)
    ensures r.Some? ==> r.value.body.base <= r.value.body.handed
  {
    After(NewTx(window), steps)
  }

  /** Some step of a run was of kind `what` in the state it met. */
  ghost predicate Happens(window: nat, steps: seq<TxStep>, what: (Tx, TxStep) -> bool)
  {
    exists i: nat {:trigger HappensAt(window, steps, what, i)} | i < |steps| :: HappensAt(window, steps, what, i)
  }

  predicate HappensAt(window: nat, steps: seq<TxStep>, what: (Tx, TxStep) -> bool, i: nat)
    requires i < |steps|
  {
    var before := Exec(window, steps[..i]);
    before.Some? && what(before.value, steps[i])
  }

  lemma {:induction false} HappensOrLast(window: nat, steps: seq<TxStep>, what: (Tx, TxStep) -> bool)
    requires |steps| > 0
    ensures var before := steps[..|steps| - 1];
            Happens(window, steps, what)
            <==> Happens(window, before, what) || HappensAt(window, steps, what, |steps| - 1)
  {
    var before := steps[..|steps| - 1];
    forall i: nat | i < |before|
      ensures HappensAt(window, steps, what, i) == HappensAt(window, before, what, i)
    {
      assert before[..i] == steps[..i];
    }
    if Happens(window, steps, what) {
      var i: nat :| i < |steps| && HappensAt(window, steps, what, i);
      assert i < |before| ==> HappensAt(window, before, what, i);
    }
    if Happens(window, before, what) {
      var i: nat :| i < |before| && HappensAt(window, before, what, i);
      assert HappensAt(window, steps, what, i);
    }
  }

  lemma {:induction false} AfterKeeps(t: Tx, steps: seq<TxStep>)
    requires TxInv(t) && After(t, steps).Some?
    ensures TxInv(After(t, steps).value)
  {
    if steps != [] {
      var before := steps[..|steps| - 1];
      AfterKeeps(t, before);
      ApplyKeeps(After(t, before).value, steps[|steps| - 1]);
    }
  }

  lemma {:induction false} ExecKeeps(window: nat, steps: seq<TxStep>)
    requires Exec(window, steps).Some?
    ensures TxInv(Exec(window, steps).value)
  {
    NewTxInv(window);
    AfterKeeps(NewTx(window), steps);
  }

  // ---- the end of the body -------------------------------------------------

  predicate WritesBytes(step: TxStep)
  {
    step.WriteBody? && step.data != []
  }

  predicate WritesNothing(steps: seq<TxStep>)
  {
    steps == [] || (WritesNothing(steps[..|steps| - 1]) && !WritesBytes(steps[|steps| - 1]))
  }

  /** How many of the steps read the body source. */
  function Reads(steps: seq<TxStep>): nat
  {
    if steps == [] then 0
    else Reads(steps[..|steps| - 1]) + OneIfRead(steps[|steps| - 1])
  }

  function OneIfRead(step: TxStep): nat
  {
    if step.ReadBody? then 1 else 0
  }

  /** How many reads a finished body with `n` chunks left takes to its end. */
  function ReadsToEnd(n: nat): nat
  {
    if n == 0 then 1 else n
  }

  /** The chunk that comes next, `k` reads after chunk `given`. */
  function Position(chunks: seq<bytes>, given: nat, k: nat): nat
  {
    if given == |chunks| then given else given + k
  }

  /** A finished body under way: `k` reads after chunk `given`, the end signalled
      exactly by the last of them. */
  ghost predicate Ending(t: Tx, chunks: seq<bytes>, freed: nat, given: nat, k: nat)
  {
    && given <= |chunks| && k <= ReadsToEnd(|chunks| - given)
    && Represents(t.body, chunks, freed, Position(chunks, given, k))
    && t.body.fin && t.headSubmitted && !t.readBlocked
    && (t.eof <==> k == ReadsToEnd(|chunks| - given))
  }

  lemma {:induction false} EndingRead(t: Tx, chunks: seq<bytes>, freed: nat, given: nat, k: nat)
    requires t.body.base <= t.body.handed && Ending(t, chunks, freed, given, k) && Readable(t)
    ensures Ending(TakeFromSource(t), chunks, freed, given, k + 1)
  {
    ReadDataMeans(t.body, chunks, freed, Position(chunks, given, k), t.hasTrailers);
    assert ReadData(t.body, t.hasTrailers).0.fin;
  }

  lemma {:induction false} EndingAck(t: Tx, n: nat, chunks: seq<bytes>, freed: nat, given: nat, k: nat)
    returns (freed': nat)
    requires Ending(t, chunks, freed, given, k) && t.body.base <= t.body.handed && t.acked + n <= t.body.handed
    ensures Ending(Acked(t, n), chunks, freed', given, k)
  {
    freed' := AckRepresents(t.body, chunks, freed, Position(chunks, given, k), t.acked + n);
  }

  /** The other steps leave the queue alone. */
  lemma {:induction false} EndingQuiet(t: Tx, step: TxStep, chunks: seq<bytes>, freed: nat, given: nat, k: nat)
    requires t.body.base <= t.body.handed && Ending(t, chunks, freed, given, k) && Legal(t, step)
    requires !WritesBytes(step) && !step.ReadBody? && !step.Acknowledge?
    ensures Ending(Apply(t, step), chunks, freed, given, k)
  {
    var t' := Apply(t, step);
    assert t'.body == t.body && t'.headSubmitted && t'.eof == t.eof && !t'.readBlocked;
  }

  lemma {:induction false} EndingStep(t: Tx, step: TxStep, chunks: seq<bytes>, given: nat, k: nat)
    requires t.body.base <= t.body.handed && UnderWay(t, chunks, given, k) && Legal(t, step) && !WritesBytes(step)
    ensures UnderWay(Apply(t, step), chunks, given, k + OneIfRead(step))
  {
    var freed: nat :| Ending(t, chunks, freed, given, k);
    match step
    case ReadBody => EndingRead(t, chunks, freed, given, k);
    case Acknowledge(n) => var freed' := EndingAck(t, n, chunks, freed, given, k);
    case _ => EndingQuiet(t, step, chunks, freed, given, k);
  }

  ghost predicate UnderWay(t: Tx, chunks: seq<bytes>, given: nat, k: nat)
  {
    exists freed: nat :: Ending(t, chunks, freed, given, k)
  }

  /** The step keeps a property that counts the reads. */
  ghost predicate KeptBy(inv: (Tx, nat) -> bool, t: Tx, step: TxStep, k: nat)
    requires t.body.base <= t.body.handed && Legal(t, step)
  {
    inv(t, k) && !WritesBytes(step) ==> inv(Apply(t, step), k + OneIfRead(step))
  }

  lemma {:induction false} CountedRun(t: Tx, steps: seq<TxStep>, inv: (Tx, nat) -> bool)
    requires t.body.base <= t.body.handed && inv(t, 0) && WritesNothing(steps) && After(t, steps).Some?
    requires forall x: Tx, step: TxStep, k: nat {:trigger KeptBy(inv, x, step, k)}
               | x.body.base <= x.body.handed && Legal(x, step) :: KeptBy(inv, x, step, k)
    ensures inv(After(t, steps).value, Reads(steps))
  {
    if steps != [] {
      var before := steps[..|steps| - 1];
      CountedRun(t, before, inv);
      assert KeptBy(inv, After(t, before).value, steps[|steps| - 1], Reads(before));
    }
  }

  lemma {:induction false} EndingRun(t: Tx, steps: seq<TxStep>, chunks: seq<bytes>, given: nat)
    requires t.body.base <= t.body.handed && UnderWay(t, chunks, given, 0)
    requires WritesNothing(steps) && After(t, steps).Some?
    ensures UnderWay(After(t, steps).value, chunks, given, Reads(steps))
  {
    var inv := (x: Tx, k: nat) => UnderWay(x, chunks, given, k);
    forall x: Tx, step: TxStep, k: nat | x.body.base <= x.body.handed && Legal(x, step)
      ensures KeptBy(inv, x, step, k)
    {
      if UnderWay(x, chunks, given, k) && !WritesBytes(step) {
        EndingStep(x, step, chunks, given, k);
      }
    }
    CountedRun(t, steps, inv);
  }

  /** After `k` reads of a finished body with chunks left from `given` on: the end was
      signalled exactly by read number max(n, 1), and before it the next read hands out
      the next chunk or, with none left at the start, the bare end. */
  ghost predicate ExactAt(t: Tx, chunks: seq<bytes>, given: nat, k: nat)
    requires t.body.base <= t.body.handed && given <= |chunks|
  {
    var n := |chunks| - given;
    var last := k + 1 == ReadsToEnd(n);
    && k <= ReadsToEnd(n) && (t.eof <==> k == ReadsToEnd(n)) && !t.readBlocked
    && (!t.eof ==>
          ReadData(t.body, t.hasTrailers).1
          == if n == 0 then EndOfBody(t.hasTrailers) else DataRun(chunks[given + k], last, last && t.hasTrailers))
  }

  lemma {:induction false} EndingAnswer(t: Tx, chunks: seq<bytes>, given: nat, k: nat)
    requires t.body.base <= t.body.handed && UnderWay(t, chunks, given, k)
    ensures given <= |chunks| && ExactAt(t, chunks, given, k)
  {
    var freed: nat :| Ending(t, chunks, freed, given, k);
    if !t.eof {
      ReadDataMeans(t.body, chunks, freed, Position(chunks, given, k), t.hasTrailers);
    }
  }

  /** From any reachable state with a finished body, whatever happens apart from further
      writes, the reads go through the remaining chunks to the end. */
  lemma {:induction false} FinishedBodyReads(window: nat, past: seq<TxStep>, steps: seq<TxStep>, chunks: seq<bytes>,
                                             freed: nat, given: nat)
    requires Exec(window, past).Some?
    requires var t := Exec(window, past).value;
             && t.accepted && !t.eof && t.body.fin && Represents(t.body, chunks, freed, given)
             && WritesNothing(steps) && After(t, steps).Some?
    ensures ExactAt(After(Exec(window, past).value, steps).value, chunks, given, Reads(steps))
  {
    var t := Exec(window, past).value;
    EndingStarts(window, past, chunks, freed, given);
    EndingRun(t, steps, chunks, given);
    EndingAnswer(After(t, steps).value, chunks, given, Reads(steps));
  }

  lemma {:induction false} EndingStarts(window: nat, past: seq<TxStep>, chunks: seq<bytes>, freed: nat, given: nat)
    requires Exec(window, past).Some?
    requires var t := Exec(window, past).value;
             t.accepted && !t.eof && t.body.fin && Represents(t.body, chunks, freed, given)
    ensures UnderWay(Exec(window, past).value, chunks, given, 0)
  {
    ExecKeeps(window, past);
    assert Ending(Exec(window, past).value, chunks, freed, given, 0);
  }

  // ---- bytes that never go out ---------------------------------------------

  /** Bytes appended after nghttp3 was told the body ended. */
  predicate LateWrite(t: Tx, step: TxStep)
  {
    t.eof && WritesBytes(step)
  }

  /** Bytes appended after the body was finished. */
  predicate WriteAfterFinish(t: Tx, step: TxStep)
  {
    t.body.fin && WritesBytes(step)
  }

  /** The response is submitted and nghttp3 refuses it; the shim does not look. */
  predicate Refused(t: Tx, step: TxStep)
  {
    !t.headSubmitted && ((step.SubmitHead? && !step.ok) || (step.SubmitResponse? && !step.ok))
  }

  /** Bytes are queued, by a write or with a one-shot response. */
  predicate Appends(t: Tx, step: TxStep)
  {
    WritesBytes(step) || (!t.headSubmitted && step.SubmitResponse? && step.data != [])
  }

  /** nghttp3 will not read this stream's body again: it saw the end, or it never took
      the response. */
  predicate Hopeless(t: Tx)
  {
    t.eof || (t.headSubmitted && !t.accepted)
  }

  /** No continuation hands out another byte. */
  ghost predicate HandsOutNoMore(t: Tx)
    requires t.body.base <= t.body.handed
  {
    forall more :: After(t, more).Some? ==> After(t, more).value.body.handed == t.body.handed
  }

  lemma {:induction false} HopelessStep(t: Tx, step: TxStep)
    requires TxInv(t) && Hopeless(t) && Legal(t, step)
    ensures Hopeless(Apply(t, step)) && Apply(t, step).body.handed == t.body.handed
  {
    assert t.headSubmitted && !step.ReadBody?;
  }

  lemma {:induction false} HopelessRun(t: Tx, more: seq<TxStep>)
    requires TxInv(t) && Hopeless(t) && After(t, more).Some?
    ensures Hopeless(After(t, more).value) && After(t, more).value.body.handed == t.body.handed
  {
    if more != [] {
      var before := more[..|more| - 1];
      HopelessRun(t, before);
      AfterKeeps(t, before);
      HopelessStep(After(t, before).value, more[|more| - 1]);
    }
  }

  /** Otherwise a submission that is taken and some window make the stream readable. */
  lemma {:induction false} HopefulReads(t: Tx)
    requires TxCore(t) && !Hopeless(t) && t.body.handed < t.body.end
    ensures var ready := Apply(Apply(t, SubmitHead(true)), ExtendWindow(1));
            Readable(ready) && TakeFromSource(ready).body.handed > t.body.handed
  {
    var ready := Apply(Apply(t, SubmitHead(true)), ExtendWindow(1));
    assert ready.body == t.body && !ready.eof && !ready.readBlocked && ready.accepted;
    ReadWellFormed(t.body, ready.hasTrailers);
  }

  /** So queued bytes still go out, without another write. */
  lemma {:induction false} HopefulRun(t: Tx)
    requires TxCore(t) && !Hopeless(t) && t.body.handed < t.body.end
    ensures var more := [SubmitHead(true), ExtendWindow(1), ReadBody];
            After(t, more).Some? && After(t, more).value.body.handed > t.body.handed
  {
    HopefulReads(t);
    AfterOneMore(t, [], SubmitHead(true));
    AfterOneMore(t, [SubmitHead(true)], ExtendWindow(1));
    AfterOneMore(t, [SubmitHead(true), ExtendWindow(1)], ReadBody);
    assert [] + [SubmitHead(true)] == [SubmitHead(true)];
    assert [SubmitHead(true)] + [ExtendWindow(1)] == [SubmitHead(true), ExtendWindow(1)];
    assert [SubmitHead(true), ExtendWindow(1)] + [ReadBody] == [SubmitHead(true), ExtendWindow(1), ReadBody];
  }

  lemma {:induction false} HandsOutNoMoreIff(t: Tx)
    requires TxInv(t) && t.body.handed < t.body.end
    ensures HandsOutNoMore(t) <==> Hopeless(t)
  {
    if Hopeless(t) {
      forall more | After(t, more).Some?
        ensures After(t, more).value.body.handed == t.body.handed
      {
        HopelessRun(t, more);
      }
    } else {
      HopefulRun(t);
    }
  }

  /** After the end is signalled only a non-empty write makes stranded bytes. */
  lemma {:induction false} StrandedStep(t: Tx, step: TxStep)
    requires TxInv(t) && Legal(t, step)
    ensures Stranded(Apply(t, step)) <==> Stranded(t) || LateWrite(t, step)
  {
    if step.ReadBody? {
      ReadWellFormed(t.body, t.hasTrailers);
    }
    if step.SubmitResponse? && t.eof {
      assert t.headSubmitted;
    }
  }

  /** Bytes are left behind the signalled end exactly when some step appended a
      non-empty chunk after it. */
  lemma {:induction false} StrandedIffLateWrite(window: nat, steps: seq<TxStep>)
    requires Exec(window, steps).Some?
    ensures Stranded(Exec(window, steps).value) <==> Happens(window, steps, LateWrite)
  {
    if steps != [] {
      var before := steps[..|steps| - 1];
      StrandedIffLateWrite(window, before);
      ExecKeeps(window, before);
      StrandedStep(Exec(window, before).value, steps[|steps| - 1]);
      HappensOrLast(window, steps, LateWrite);
    }
  }

  /** Nothing is handed out of a response nghttp3 does not have. */
  predicate Untouched(t: Tx)
  {
    !t.accepted ==> t.body.handed == 0
  }

  lemma {:induction false} RefusedStep(t: Tx, step: TxStep)
    requires TxInv(t) && Untouched(t) && Legal(t, step)
    ensures var t' := Apply(t, step);
            && Untouched(t')
            && (t'.headSubmitted && !t'.accepted <==> (t.headSubmitted && !t.accepted) || Refused(t, step))
            && (t'.body.end > 0 <==> t.body.end > 0 || Appends(t, step))
  {
    match step
    case ReadBody => ReadWellFormed(t.body, t.hasTrailers);
    case Acknowledge(n) => assert Acked(t, n).body.end == t.body.end;
    case _ =>
  }

  lemma {:induction false} RefusedRun(window: nat, steps: seq<TxStep>)
    requires Exec(window, steps).Some?
    ensures var t := Exec(window, steps).value;
            && Untouched(t)
            && (t.headSubmitted && !t.accepted <==> Happens(window, steps, Refused))
            && (t.body.end > 0 <==> Happens(window, steps, Appends))
  {
    if steps != [] {
      var before := steps[..|steps| - 1];
      RefusedRun(window, before);
      ExecKeeps(window, before);
      RefusedStep(Exec(window, before).value, steps[|steps| - 1]);
      HappensOrLast(window, steps, Refused);
      HappensOrLast(window, steps, Appends);
    }
  }

  /** Exactly when queued bytes are lost, over every run: no continuation hands them out
      if and only if some were appended after the end was signalled, or some were
      appended at any time and nghttp3 refused the response. */
  lemma {:induction false} LostExactlyWhen(window: nat, steps: seq<TxStep>)
    requires Exec(window, steps).Some?
    ensures var t := Exec(window, steps).value;
            t.body.handed < t.body.end && HandsOutNoMore(t)
            <==> || Happens(window, steps, LateWrite)
                 || (Happens(window, steps, Refused) && Happens(window, steps, Appends))
  {
    var t := Exec(window, steps).value;
    ExecKeeps(window, steps);
    StrandedIffLateWrite(window, steps);
    RefusedRun(window, steps);
    if t.body.handed < t.body.end {
      HandsOutNoMoreIff(t);
    }
  }

  /** No lost wake-up, over every run: a stream that was only written to while its
      body was open, whose response nghttp3 took, whose window is open and that has
      anything left to send, is offered to the scheduler. */
  lemma {:induction false} NoLostWakeUp(window: nat, steps: seq<TxStep>)
    requires Exec(window, steps).Some?
    requires !Happens(window, steps, WriteAfterFinish)
    ensures var t := Exec(window, steps).value;
            Unsent(t) && t.gate.window > 0 && !t.gate.shut ==> Offered(t)
  {
    ExecKeeps(window, steps);
    StrandedIffLateWrite(window, steps);
    var t := Exec(window, steps).value;
    if Stranded(t) {
      var i: nat :| i < |steps| && HappensAt(window, steps, LateWrite, i);
      ExecKeeps(window, steps[..i]);
      assert HappensAt(window, steps, WriteAfterFinish, i);
    } else if Unsent(t) && t.gate.window > 0 && !t.gate.shut {
      OfferedUnlessStranded(t);
    }
  }

  /** A byte written after the end was read is lost. */
  lemma {:induction false} LateWriteIsLost()
    ensures var lost := [SubmitHead(true), FinishBody, ReadBody, WriteBody([7])];
            && Exec(9, lost).Some? && Stranded(Exec(9, lost).value)
            && HandsOutNoMore(Exec(9, lost).value)
  {
    var s1 := [SubmitHead(true)];
    var s2 := [SubmitHead(true), FinishBody];
    var s3 := [SubmitHead(true), FinishBody, ReadBody];
    var s4 := [SubmitHead(true), FinishBody, ReadBody, WriteBody([7])];
    assert s4[..3] == s3 && s3[..2] == s2 && s2[..1] == s1 && s1[..0] == [];
    assert Exec(9, s1) == Some(NewTx(9).(headSubmitted := true, accepted := true));
    assert Exec(9, s2).Some?;
    assert Exec(9, s3).Some?;
    ExecKeeps(9, s4);
    HandsOutNoMoreIff(Exec(9, s4).value);
  }

  /** A byte written behind a refused submission is lost, with no write after the end. */
  lemma {:induction false} RefusedResponseLosesBytes()
    ensures var lost := [SubmitHead(false), WriteBody([7])];
            && Exec(9, lost).Some? && !Stranded(Exec(9, lost).value)
            && Exec(9, lost).value.body.handed < Exec(9, lost).value.body.end
            && HandsOutNoMore(Exec(9, lost).value)
  {
    var s1, s2 := [SubmitHead(false)], [SubmitHead(false), WriteBody([7])];
    assert s2[..1] == s1 && s1[..0] == [];
    assert Exec(9, s1) == Some(NewTx(9).(headSubmitted := true));
    ExecKeeps(9, s2);
    HandsOutNoMoreIff(Exec(9, s2).value);
  }

  /** Finishing early does not lose the write by itself: a byte written after finish
      but before nghttp3 read the end still goes out. */
  lemma {:induction false} EarlyWriteIsKept()
    ensures var kept := [SubmitHead(true), FinishBody, WriteBody([7]), ReadBody];
            Exec(9, kept).Some? && !Stranded(Exec(9, kept).value) && Exec(9, kept).value.outq == 1
  {
    var k1 := [SubmitHead(true)];
    var k2 := [SubmitHead(true), FinishBody];
    var k3 := [SubmitHead(true), FinishBody, WriteBody([7])];
    var k4 := [SubmitHead(true), FinishBody, WriteBody([7]), ReadBody];
    assert k4[..3] == k3 && k3[..2] == k2 && k2[..1] == k1 && k1[..0] == [];
    assert Exec(9, k1) == Some(NewTx(9).(headSubmitted := true, accepted := true));
    assert Exec(9, k2).Some?;
    assert Exec(9, k3).Some?;
  }
}
