/** A stream's sending side against its history: what the application wrote, finished and
    submitted, and what nghttp3 and ngtcp2 did, each read off the steps alone, decides
    what the stream hands out and remembers. */
module StreamHistory {
  import opened Common
  import B = ResponseBody
  import opened StreamSend

  // ---- what the steps say --------------------------------------------------

  function Before(steps: seq<TxStep>): seq<TxStep>
    requires steps != []
  {
    steps[..|steps| - 1]
  }

  function Last(steps: seq<TxStep>): TxStep
    requires steps != []
  {
    steps[|steps| - 1]
  }

  /** A response head was submitted; only the first one counts. */
  predicate Submitted(steps: seq<TxStep>)
  {
    steps != [] && (Last(steps).SubmitHead? || Last(steps).SubmitResponse? || Submitted(Before(steps)))
  }

  /** nghttp3 took it. */
  predicate Taken(steps: seq<TxStep>)
  {
    && steps != []
    && if Submitted(Before(steps)) then Taken(Before(steps))
       else (Last(steps).SubmitHead? && Last(steps).ok) || (Last(steps).SubmitResponse? && Last(steps).ok)
  }

  /** The body bytes a step appends: those of a write, or of the one-shot response. */
  function Appended(past: seq<TxStep>, step: TxStep): bytes
  {
    match step
    case WriteBody(data) => data
    case SubmitResponse(data, _, _) => if Submitted(past) then [] else data
    case _ => []
  }

  /** Everything the application wrote. */
  function Written(steps: seq<TxStep>): bytes
  {
    if steps == [] then [] else Written(Before(steps)) + Appended(Before(steps), Last(steps))
  }

  /** The same, piece by piece. */
  function Pieces(steps: seq<TxStep>): seq<bytes>
  {
    if steps == [] then []
    else
      var data := Appended(Before(steps), Last(steps));
      Pieces(Before(steps)) + if data == [] then [] else [data]
  }

  /** The application ended the body; a one-shot response says so itself. */
  predicate Finished(steps: seq<TxStep>)
  {
    && steps != []
    && match Last(steps)
       case FinishBody => true
       case SubmitResponse(_, fin, _) => if Submitted(Before(steps)) then Finished(Before(steps)) else fin
       case _ => Finished(Before(steps))
  }

  /** Some trailer fields were submitted after the head and nghttp3 took them. */
  predicate Trailers(steps: seq<TxStep>)
  {
    && steps != []
    && (|| Trailers(Before(steps))
        || (Submitted(Before(steps)) && Last(steps).SubmitTrailers? && Last(steps).fields > 0 && Last(steps).ok))
  }

  /** ngtcp2 reported the write side shut. */
  predicate Closed(steps: seq<TxStep>)
  {
    steps != [] && (Last(steps).ShutWrite? || Closed(Before(steps)))
  }

  /** What the steps add up to. */
  function Total(steps: seq<TxStep>, amount: TxStep -> nat): nat
  {
    if steps == [] then 0 else Total(Before(steps), amount) + amount(Last(steps))
  }

  function AckedBy(step: TxStep): nat
  {
    if step.Acknowledge? then step.n else 0
  }

  function FramedBy(step: TxStep): nat
  {
    if step.Frame? then step.n else 0
  }

  function SentBy(step: TxStep): nat
  {
    if step.Transmit? then step.n else 0
  }

  function WidenedBy(step: TxStep): nat
  {
    if step.ExtendWindow? then step.n else 0
  }

  lemma {:induction false} OneMore(steps: seq<TxStep>, step: TxStep)
    ensures var all := steps + [step]; all != [] && Before(all) == steps && Last(all) == step
  {
  }

  lemma {:induction false} TotalMore(steps: seq<TxStep>, step: TxStep, amount: TxStep -> nat)
    ensures Total(steps + [step], amount) == Total(steps, amount) + amount(step)
  {
    OneMore(steps, step);
  }

  lemma {:induction false} PiecesMore(steps: seq<TxStep>, step: TxStep)
    ensures var data := Appended(steps, step);
            Pieces(steps + [step]) == Pieces(steps) + if data == [] then [] else [data]
  {
    OneMore(steps, step);
  }

  lemma {:induction false} PiecesMakeWritten(steps: seq<TxStep>)
    ensures Flatten(Pieces(steps)) == Written(steps) && B.AllNonEmpty(Pieces(steps))
  {
    if steps == [] {
      assert B.AllNonEmpty([]);
    } else {
      var data := Appended(Before(steps), Last(steps));
      PiecesMakeWritten(Before(steps));
      if data == [] {
        assert Written(Before(steps)) + [] == Written(Before(steps));
        assert Pieces(Before(steps)) + [] == Pieces(Before(steps));
      } else {
        FlattenAppend(Pieces(Before(steps)), data);
        B.NonEmptyPush(Pieces(Before(steps)), data);
      }
    }
  }

  // ---- the stream keeps to it ----------------------------------------------

  /** The queue is the pieces not wholly acknowledged, with the first `given` handed out. */
  ghost predicate Queued(b: B.BodyState, acked: nat, pieces: seq<bytes>, given: nat)
  {
    exists freed: nat :: QueuedFrom(b, acked, pieces, freed, given)
  }

  ghost predicate QueuedFrom(b: B.BodyState, acked: nat, pieces: seq<bytes>, freed: nat, given: nat)
  {
    && B.Represents(b, pieces, freed, given)
    && B.Offset(pieces, freed) <= acked && (freed < |pieces| ==> acked < B.Offset(pieces, freed + 1))
  }

  /** What the stream remembers of the application's calls and of its write side. */
  predicate Remembers(t: Tx, steps: seq<TxStep>)
  {
    && t.headSubmitted == Submitted(steps) && t.accepted == Taken(steps)
    && t.body.fin == Finished(steps) && t.hasTrailers == Trailers(steps)
    && t.gate.shut == Closed(steps)
  }

  /** The sums come out, `out` bytes having been handed to nghttp3. */
  predicate AddsUp(t: Tx, window: nat, steps: seq<TxStep>, out: nat)
  {
    && t.acked == Total(steps, AckedBy)
    && t.outq + Total(steps, SentBy) == Total(steps, FramedBy) + out
    && t.gate.window + Total(steps, SentBy) == window + Total(steps, WidenedBy)
  }

  /** The queue goes with the pieces, of which `runs` were handed out. */
  ghost predicate Holds(b: B.BodyState, acked: nat, pieces: seq<bytes>, runs: seq<bytes>)
  {
    runs <= pieces && Queued(b, acked, pieces, |runs|)
  }

  /** Stream `t` is what `steps` make of a fresh one, and its reads handed out `runs`. */
  ghost predicate Recorded(t: Tx, window: nat, steps: seq<TxStep>, runs: seq<bytes>)
  {
    && Remembers(t, steps)
    && AddsUp(t, window, steps, |Flatten(runs)|)
    && Holds(t.body, t.acked, Pieces(steps), runs)
  }

  /** The run a step hands to nghttp3, if any. */
  function RunOf(t: Tx, step: TxStep): seq<bytes>
    requires t.body.base <= t.body.handed
  {
    if step.ReadBody? then
      (match ReadData(t.body, t.hasTrailers).1
       case DataRun(run, _, _) => [run]
       case _ => [])
    else []
  }

  lemma {:induction false} QueuedPush(b: B.BodyState, acked: nat, pieces: seq<bytes>, given: nat, d: bytes, fin: bool)
    requires Queued(b, acked, pieces, given) && acked <= b.end
    ensures var more := pieces + if d == [] then [] else [d];
            Queued(B.Push(b, d), acked, more, given) && Queued(B.Push(b, d).(fin := fin), acked, more, given)
  {
    var freed: nat :| QueuedFrom(b, acked, pieces, freed, given);
    var more := pieces + if d == [] then [] else [d];
    B.PushRepresents(b, pieces, freed, given, d);
    if d == [] {
      assert more == pieces;
    } else {
      B.OffsetPush(pieces, d, |pieces|);
      B.OffsetPush(pieces, d, freed);
      if freed < |pieces| {
        B.OffsetPush(pieces, d, freed + 1);
      } else {
        B.OffsetMono(more, |pieces|, |more|);
      }
    }
    assert QueuedFrom(B.Push(b, d), acked, more, freed, given);
    assert QueuedFrom(B.Push(b, d).(fin := fin), acked, more, freed, given);
  }

  lemma {:induction false} QueuedFin(b: B.BodyState, acked: nat, pieces: seq<bytes>, given: nat, fin: bool)
    requires Queued(b, acked, pieces, given)
    ensures Queued(b.(fin := fin), acked, pieces, given)
  {
    var freed: nat :| QueuedFrom(b, acked, pieces, freed, given);
    assert QueuedFrom(b.(fin := fin), acked, pieces, freed, given);
  }

  lemma {:induction false} QueuedAck(b: B.BodyState, acked: nat, pieces: seq<bytes>, given: nat, now: nat)
    requires Queued(b, acked, pieces, given) && acked <= now <= b.handed
    ensures Queued(B.Ack(b, now), now, pieces, given)
  {
    var freed: nat :| QueuedFrom(b, acked, pieces, freed, given);
    var stop := B.AckRepresents(b, pieces, freed, given, now);
    assert QueuedFrom(B.Ack(b, now), now, pieces, stop, given);
  }

  lemma {:induction false} QueuedRead(b: B.BodyState, acked: nat, pieces: seq<bytes>, given: nat, hasTrailers: bool)
    requires Queued(b, acked, pieces, given)
    ensures b.base <= b.handed && given <= |pieces|
    ensures var (b', r) := ReadData(b, hasTrailers);
            if given < |pieces| then r.DataRun? && r.run == pieces[given] && Queued(b', acked, pieces, given + 1)
            else !r.DataRun? && b' == b
  {
    var freed: nat :| QueuedFrom(b, acked, pieces, freed, given);
    ReadDataMeans(b, pieces, freed, given, hasTrailers);
    if given < |pieces| {
      assert QueuedFrom(ReadData(b, hasTrailers).0, acked, pieces, freed, given + 1);
    }
  }

  lemma {:induction false} StepRemembers(t: Tx, steps: seq<TxStep>, step: TxStep)
    requires Remembers(t, steps) && t.body.base <= t.body.handed && Legal(t, step)
    ensures Remembers(Apply(t, step), steps + [step])
  {
    OneMore(steps, step);
    match step
    case SubmitResponse(_, _, _) =>
    case SubmitHead(_) =>
    case SubmitTrailers(_, _) =>
    case FinishBody =>
    case ShutWrite =>
    case _ => QuietRemembers(t, steps, step);
  }

  predicate IsQuiet(step: TxStep)
  {
    !step.SubmitResponse? && !step.SubmitHead? && !step.SubmitTrailers? && !step.FinishBody? && !step.ShutWrite?
  }

  lemma {:induction false} QuietSteps(steps: seq<TxStep>, step: TxStep)
    requires IsQuiet(step)
    ensures var all := steps + [step];
            && Submitted(all) == Submitted(steps) && Taken(all) == Taken(steps) && Finished(all) == Finished(steps)
            && Trailers(all) == Trailers(steps) && Closed(all) == Closed(steps)
  {
    OneMore(steps, step);
    if !Submitted(steps) {
      TakenIsSubmitted(steps);
    }
  }

  lemma {:induction false} TakenIsSubmitted(steps: seq<TxStep>)
    ensures Taken(steps) ==> Submitted(steps)
  {
    if steps != [] {
      TakenIsSubmitted(Before(steps));
    }
  }

  ghost predicate SameFlags(t: Tx, u: Tx)
  {
    && u.headSubmitted == t.headSubmitted && u.accepted == t.accepted && u.hasTrailers == t.hasTrailers
    && u.body.fin == t.body.fin && u.gate.shut == t.gate.shut
  }

  predicate MovesBody(step: TxStep)
  {
    step.WriteBody? || step.ReadBody? || step.Acknowledge?
  }

  lemma {:induction false} QuietBody(t: Tx, step: TxStep)
    requires t.body.base <= t.body.handed && Legal(t, step) && MovesBody(step)
    ensures SameFlags(t, Apply(t, step))
  {
    match step
    case WriteBody(data) => assert B.Push(t.body, data).fin == t.body.fin;
    case ReadBody => assert TakeFromSource(t).body.fin == t.body.fin;
    case Acknowledge(n) => assert Acked(t, n).body.fin == t.body.fin;
  }

  lemma {:induction false} QuietGate(t: Tx, step: TxStep)
    requires t.body.base <= t.body.handed && Legal(t, step) && IsQuiet(step) && !MovesBody(step)
    ensures SameFlags(t, Apply(t, step))
  {
  }

  lemma {:induction false} QuietRemembers(t: Tx, steps: seq<TxStep>, step: TxStep)
    requires Remembers(t, steps) && t.body.base <= t.body.handed && Legal(t, step) && IsQuiet(step)
    ensures Remembers(Apply(t, step), steps + [step])
  {
    QuietSteps(steps, step);
    if MovesBody(step) {
      QuietBody(t, step);
    } else {
      QuietGate(t, step);
    }
  }

  lemma {:induction false} StepAddsUp(t: Tx, window: nat, steps: seq<TxStep>, out: nat, step: TxStep)
    requires AddsUp(t, window, steps, out) && t.body.base <= t.body.handed && Legal(t, step)
    ensures AddsUp(Apply(t, step), window, steps + [step], out + |Flatten(RunOf(t, step))|)
  {
    TotalMore(steps, step, AckedBy);
    TotalMore(steps, step, SentBy);
    TotalMore(steps, step, FramedBy);
    TotalMore(steps, step, WidenedBy);
    match step
    case ReadBody =>
      var answer := ReadData(t.body, t.hasTrailers).1;
      if answer.DataRun? {
        FlattenOne(answer.run);
      }
    case _ =>
  }

  lemma {:induction false} FlattenOne(run: bytes)
    ensures Flatten([run]) == run
  {
    assert [run][1..] == [] && run + [] == run;
  }

  lemma {:induction false} PushHolds(b: B.BodyState, acked: nat, pieces: seq<bytes>, runs: seq<bytes>, d: bytes,
                                     fin: bool)
    requires Holds(b, acked, pieces, runs) && acked <= b.end
    ensures var more := pieces + if d == [] then [] else [d];
            Holds(B.Push(b, d), acked, more, runs) && Holds(B.Push(b, d).(fin := fin), acked, more, runs)
  {
    QueuedPush(b, acked, pieces, |runs|, d, fin);
  }

  /** The step keeps queue, pieces and runs together. */
  ghost predicate StillHolds(t: Tx, steps: seq<TxStep>, runs: seq<bytes>, step: TxStep)
    requires t.body.base <= t.body.handed && Legal(t, step)
  {
    var t' := Apply(t, step);
    Holds(t'.body, t'.acked, Pieces(steps + [step]), runs + RunOf(t, step))
  }

  lemma {:induction false} WriteHolds(t: Tx, steps: seq<TxStep>, runs: seq<bytes>, step: TxStep)
    requires t.body.base <= t.body.handed && t.acked <= t.body.end && Legal(t, step)
    requires Holds(t.body, t.acked, Pieces(steps), runs) && t.headSubmitted == Submitted(steps)
    requires step.WriteBody? || (step.SubmitResponse? && !t.headSubmitted)
    ensures StillHolds(t, steps, runs, step)
  {
    PiecesMore(steps, step);
    PushHolds(t.body, t.acked, Pieces(steps), runs, Appended(steps, step), step.SubmitResponse? && step.fin);
    assert runs + RunOf(t, step) == runs;
  }

  lemma {:induction false} FinishHolds(t: Tx, steps: seq<TxStep>, runs: seq<bytes>)
    requires t.body.base <= t.body.handed && Holds(t.body, t.acked, Pieces(steps), runs)
    ensures StillHolds(t, steps, runs, FinishBody)
  {
    PiecesMore(steps, FinishBody);
    QueuedFin(t.body, t.acked, Pieces(steps), |runs|, true);
    assert runs + [] == runs && Pieces(steps) + [] == Pieces(steps);
  }

  lemma {:induction false} AckHolds(t: Tx, steps: seq<TxStep>, runs: seq<bytes>, n: nat)
    requires t.body.base <= t.body.handed && t.acked + n <= t.body.handed
    requires Holds(t.body, t.acked, Pieces(steps), runs)
    ensures StillHolds(t, steps, runs, Acknowledge(n))
  {
    var step := Acknowledge(n);
    AckOnly(t, steps, runs, n);
    HoldsAck(t.body, t.acked, Pieces(steps), runs, t.acked + n, Apply(t, step).body, Pieces(steps + [step]),
             runs + RunOf(t, step));
  }

  lemma {:induction false} AckOnly(t: Tx, steps: seq<TxStep>, runs: seq<bytes>, n: nat)
    requires t.body.base <= t.body.handed && t.acked + n <= t.body.handed
    ensures var step := Acknowledge(n);
            && Apply(t, step).body == B.Ack(t.body, t.acked + n) && Apply(t, step).acked == t.acked + n
            && Pieces(steps + [step]) == Pieces(steps) && runs + RunOf(t, step) == runs
  {
    PiecesMore(steps, Acknowledge(n));
    assert runs + [] == runs && Pieces(steps) + [] == Pieces(steps);
  }

  lemma {:induction false} HoldsAck(b: B.BodyState, acked: nat, pieces: seq<bytes>, runs: seq<bytes>, now: nat,
                                    b': B.BodyState, pieces': seq<bytes>, runs': seq<bytes>)
    requires Holds(b, acked, pieces, runs) && acked <= now <= b.handed
    requires b' == B.Ack(b, now) && pieces' == pieces && runs' == runs
    ensures Holds(b', now, pieces', runs')
  {
    QueuedAck(b, acked, pieces, |runs|, now);
  }

  lemma {:induction false} SourceHolds(t: Tx, steps: seq<TxStep>, runs: seq<bytes>)
    requires t.body.base <= t.body.handed && Readable(t) && Holds(t.body, t.acked, Pieces(steps), runs)
    ensures StillHolds(t, steps, runs, ReadBody)
  {
    PiecesMore(steps, ReadBody);
    ReadHolds(t.body, t.acked, Pieces(steps), runs, t.hasTrailers);
    assert Pieces(steps) + [] == Pieces(steps);
  }

  lemma {:induction false} QuietHolds(t: Tx, steps: seq<TxStep>, runs: seq<bytes>, step: TxStep)
    requires t.body.base <= t.body.handed && Legal(t, step) && Holds(t.body, t.acked, Pieces(steps), runs)
    requires !step.WriteBody? && !step.FinishBody? && !step.ReadBody? && !step.Acknowledge?
    requires step.SubmitResponse? ==> t.headSubmitted && Submitted(steps)
    ensures StillHolds(t, steps, runs, step)
  {
    PiecesMore(steps, step);
    assert runs + [] == runs && Pieces(steps) + [] == Pieces(steps);
    assert Apply(t, step).body == t.body && Apply(t, step).acked == t.acked;
  }

  lemma {:induction false} StepHolds(t: Tx, steps: seq<TxStep>, runs: seq<bytes>, step: TxStep)
    requires t.body.base <= t.body.handed && t.acked <= t.body.end && Legal(t, step)
    requires Holds(t.body, t.acked, Pieces(steps), runs) && t.headSubmitted == Submitted(steps)
    ensures StillHolds(t, steps, runs, step)
  {
    match step
    case ReadBody => SourceHolds(t, steps, runs);
    case Acknowledge(n) => AckHolds(t, steps, runs, n);
    case WriteBody(_) => WriteHolds(t, steps, runs, step);
    case FinishBody => FinishHolds(t, steps, runs);
    case SubmitResponse(_, _, _) =>
      if t.headSubmitted {
        QuietHolds(t, steps, runs, step);
      } else {
        WriteHolds(t, steps, runs, step);
      }
    case _ => QuietHolds(t, steps, runs, step);
  }

  lemma {:induction false} ReadHolds(b: B.BodyState, acked: nat, pieces: seq<bytes>, runs: seq<bytes>,
                                     hasTrailers: bool)
    requires Holds(b, acked, pieces, runs)
    ensures b.base <= b.handed
    ensures var (b', r) := ReadData(b, hasTrailers);
            Holds(b', acked, pieces, runs + if r.DataRun? then [r.run] else [])
  {
    QueuedRead(b, acked, pieces, |runs|, hasTrailers);
    assert runs + [] == runs;
    if |runs| < |pieces| {
      assert runs + [pieces[|runs|]] <= pieces;
    }
  }

  lemma {:induction false} StepRecords(t: Tx, window: nat, steps: seq<TxStep>, runs: seq<bytes>, step: TxStep)
    requires t.body.base <= t.body.handed && t.acked <= t.body.end && Legal(t, step)
    requires Recorded(t, window, steps, runs)
    ensures Recorded(Apply(t, step), window, steps + [step], runs + RunOf(t, step))
  {
    StepRemembers(t, steps, step);
    StepAddsUp(t, window, steps, |Flatten(runs)|, step);
    StepHolds(t, steps, runs, step);
    FlattenConcat(runs, RunOf(t, step));
  }

  /** More window that nghttp3 was not told of. */
  lemma {:induction false} WidenRecords(t: Tx, window: nat, steps: seq<TxStep>, runs: seq<bytes>, n: nat)
    requires Recorded(t, window, steps, runs)
    ensures Recorded(t.(gate := t.gate.(window := t.gate.window + n)), window, steps + [ExtendWindow(n)], runs)
  {
    var step := ExtendWindow(n);
    OneMore(steps, step);
    PiecesMore(steps, step);
    TotalMore(steps, step, AckedBy);
    TotalMore(steps, step, SentBy);
    TotalMore(steps, step, FramedBy);
    TotalMore(steps, step, WidenedBy);
    assert Pieces(steps) + [] == Pieces(steps);
  }

  lemma {:induction false} NewRecords(window: nat)
    ensures Recorded(NewTx(window), window, [], [])
  {
    assert QueuedFrom(B.EMPTY_BODY, 0, [], 0, 0);
  }

  // ---- over every run --------------------------------------------------------

  /** The runs handed to nghttp3 by the reads of a run. */
  function Runs(window: nat, steps: seq<TxStep>): seq<bytes>
    requires Exec(window, steps).Some?
  {
    if steps == [] then []
    else Runs(window, Before(steps)) + RunOf(Exec(window, Before(steps)).value, Last(steps))
  }

  lemma {:induction false} ExecBounds(window: nat, steps: seq<TxStep>)
    requires Exec(window, steps).Some?
    ensures var t := Exec(window, steps).value; t.body.base <= t.acked <= t.body.handed <= t.body.end
  {
    ExecKeeps(window, steps);
  }

  /** The step takes a property of stream, steps and runs one step on. */
  ghost predicate Passes(inv: (Tx, seq<TxStep>, seq<bytes>) -> bool, t: Tx, steps: seq<TxStep>, runs: seq<bytes>,
                         step: TxStep)
    requires t.body.base <= t.body.handed && Legal(t, step)
  {
    inv(t, steps, runs) && t.acked <= t.body.end ==> inv(Apply(t, step), steps + [step], runs + RunOf(t, step))
  }

  lemma {:induction false} FoldRun(window: nat, steps: seq<TxStep>, inv: (Tx, seq<TxStep>, seq<bytes>) -> bool)
    requires Exec(window, steps).Some? && inv(NewTx(window), [], [])
    requires forall t: Tx, past: seq<TxStep>, runs: seq<bytes>, step: TxStep {:trigger Passes(inv, t, past, runs, step)}
               | t.body.base <= t.body.handed && Legal(t, step) :: Passes(inv, t, past, runs, step)
    ensures inv(Exec(window, steps).value, steps, Runs(window, steps))
  {
    if steps != [] {
      var past, step := Before(steps), Last(steps);
      FoldRun(window, past, inv);
      ExecBounds(window, past);
      assert Passes(inv, Exec(window, past).value, past, Runs(window, past), step);
      assert past + [step] == steps;
    }
  }

  lemma {:induction false} RunRecords(window: nat, steps: seq<TxStep>)
    requires Exec(window, steps).Some?
    ensures Recorded(Exec(window, steps).value, window, steps, Runs(window, steps))
  {
    var inv := (t: Tx, past: seq<TxStep>, runs: seq<bytes>) => Recorded(t, window, past, runs);
    NewRecords(window);
    forall t: Tx, past: seq<TxStep>, runs: seq<bytes>, step: TxStep | t.body.base <= t.body.handed && Legal(t, step)
      ensures Passes(inv, t, past, runs, step)
    {
      if Recorded(t, window, past, runs) && t.acked <= t.body.end {
        StepRecords(t, window, past, runs, step);
      }
    }
    FoldRun(window, steps, inv);
  }

  lemma {:induction false} HeldBytes(b: B.BodyState, acked: nat, pieces: seq<bytes>, runs: seq<bytes>)
    requires Holds(b, acked, pieces, runs)
    ensures b.end == |Flatten(pieces)| && b.handed <= b.end && Flatten(runs) == Flatten(pieces)[..b.handed]
  {
    var given := |runs|;
    var freed: nat :| QueuedFrom(b, acked, pieces, freed, given);
    B.OffsetIsLength(pieces, given);
    B.OffsetIsLength(pieces, |pieces|);
    assert runs == pieces[..given] && pieces[..|pieces|] == pieces;
    PrefixFlattens(pieces, given);
  }

  lemma {:induction false} PrefixFlattens(pieces: seq<bytes>, k: nat)
    requires k <= |pieces|
    ensures var n := |Flatten(pieces[..k])|; n <= |Flatten(pieces)| && Flatten(pieces)[..n] == Flatten(pieces[..k])
  {
    assert pieces == pieces[..k] + pieces[k..];
    FlattenConcat(pieces[..k], pieces[k..]);
  }

  lemma {:induction false} RecordedBytes(t: Tx, window: nat, steps: seq<TxStep>, runs: seq<bytes>)
    requires Recorded(t, window, steps, runs)
    ensures t.body.end == |Written(steps)| && t.body.handed <= |Written(steps)|
    ensures Flatten(runs) == Written(steps)[..t.body.handed]
  {
    PiecesMakeWritten(steps);
    HeldBytes(t.body, t.acked, Pieces(steps), runs);
  }

  /** Nothing is changed on the way: over every run, what the reads handed to nghttp3 is
      the first `handed` bytes of everything the application wrote, the queue ends where
      that ends, and every run is one piece as it was written. */
  lemma {:induction false} HandsOutWhatWasWritten(window: nat, steps: seq<TxStep>)
    requires Exec(window, steps).Some?
    ensures var t, runs := Exec(window, steps).value, Runs(window, steps);
            && t.body.end == |Written(steps)| && t.body.handed <= |Written(steps)|
            && Flatten(runs) == Written(steps)[..t.body.handed]
            && runs <= Pieces(steps)
  {
    RunRecords(window, steps);
    RecordedBytes(Exec(window, steps).value, window, steps, Runs(window, steps));
  }

  /** Nothing is freed early or kept late: over every run, the queue is exactly the pieces
      that are not wholly acknowledged, as they were written. */
  lemma {:induction false} KeepsWhatIsNotAcknowledged(window: nat, steps: seq<TxStep>) returns (freed: nat)
    requires Exec(window, steps).Some?
    ensures var pieces, acked := Pieces(steps), Total(steps, AckedBy);
            && freed <= |pieces| && Exec(window, steps).value.body.q == pieces[freed..]
            && |Flatten(pieces[..freed])| <= acked
            && (freed < |pieces| ==> acked < |Flatten(pieces[..freed + 1])|)
  {
    RunRecords(window, steps);
    var t := Exec(window, steps).value;
    freed := HeldPieces(t.body, t.acked, Pieces(steps), |Runs(window, steps)|);
  }

  lemma {:induction false} HeldPieces(b: B.BodyState, acked: nat, pieces: seq<bytes>, given: nat) returns (freed: nat)
    requires Queued(b, acked, pieces, given)
    ensures freed <= |pieces| && b.q == pieces[freed..]
    ensures |Flatten(pieces[..freed])| <= acked && (freed < |pieces| ==> acked < |Flatten(pieces[..freed + 1])|)
  {
    freed :| QueuedFrom(b, acked, pieces, freed, given);
    B.TailIs(b.q, pieces, freed);
    B.OffsetIsLength(pieces, freed);
    if freed < |pieces| {
      B.OffsetIsLength(pieces, freed + 1);
    }
  }

  // ---- the end of the body -------------------------------------------------

  /** After `k` reads of a finished body with the pieces from `given` on left: the end was
      signalled exactly by read number max(n, 1), and before it the next read hands out
      the next piece or, with none left at the start, the bare end. */
  ghost predicate EofAt(t: Tx, pieces: seq<bytes>, given: nat, k: nat, trailers: bool)
    requires t.body.base <= t.body.handed && given <= |pieces|
  {
    var n := |pieces| - given;
    var last := k + 1 == ReadsToEnd(n);
    && k <= ReadsToEnd(n) && (t.eof <==> k == ReadsToEnd(n)) && !t.readBlocked
    && (!t.eof ==>
          ReadData(t.body, t.hasTrailers).1
          == if n == 0 then EndOfBody(trailers) else DataRun(pieces[given + k], last, last && trailers))
  }

  /** EOF is exact: once nghttp3 took the response and the application finished the body,
      whatever happens apart from further writes (acknowledgements, trailers, packets,
      parking and waking up), the n pieces not handed out yet come out one per read, no
      read says "nothing yet", and the end is signalled by read number max(n, 1) and by no
      earlier one, with NO_END_STREAM on it exactly when trailers were submitted after the
      head and taken by then. */
  lemma {:induction false} EofIsExact(window: nat, past: seq<TxStep>, steps: seq<TxStep>)
    requires Exec(window, past).Some? && !Exec(window, past).value.eof && Taken(past) && Finished(past)
    requires WritesNothing(steps) && Exec(window, past + steps).Some? && After(Exec(window, past).value, steps).Some?
    ensures |Runs(window, past)| <= |Pieces(past)|
    ensures EofAt(Exec(window, past + steps).value, Pieces(past), |Runs(window, past)|, Reads(steps),
                  Trailers(past + steps))
  {
    var t := Exec(window, past + steps).value;
    AfterConcat(NewTx(window), past, steps);
    FinishedExactly(window, past, steps);
    assert t.hasTrailers == Trailers(past + steps) by {
      RunRecords(window, past + steps);
    }
    ExactMeansEof(t, Pieces(past), |Runs(window, past)|, Reads(steps));
  }

  lemma {:induction false} ExactMeansEof(t: Tx, pieces: seq<bytes>, given: nat, k: nat)
    requires t.body.base <= t.body.handed && given <= |pieces| && ExactAt(t, pieces, given, k)
    ensures EofAt(t, pieces, given, k, t.hasTrailers)
  {
  }

  lemma {:induction false} FinishedExactly(window: nat, past: seq<TxStep>, steps: seq<TxStep>)
    requires Exec(window, past).Some? && !Exec(window, past).value.eof && Taken(past) && Finished(past)
    requires WritesNothing(steps) && After(Exec(window, past).value, steps).Some?
    ensures |Runs(window, past)| <= |Pieces(past)|
    ensures ExactAt(After(Exec(window, past).value, steps).value, Pieces(past), |Runs(window, past)|, Reads(steps))
  {
    var t, given := Exec(window, past).value, |Runs(window, past)|;
    RunRecords(window, past);
    var freed: nat :| QueuedFrom(t.body, t.acked, Pieces(past), freed, given);
    FinishedBodyReads(window, past, steps, Pieces(past), freed, given);
  }

  /** The stream's window and what nghttp3 holds for it are conserved: window granted is
      window left plus bytes sent, and bytes framed and handed out are bytes held plus
      bytes sent. */
  lemma {:induction false} NothingIsSentTwice(window: nat, steps: seq<TxStep>)
    requires Exec(window, steps).Some?
    ensures var t := Exec(window, steps).value;
            && t.gate.window + Total(steps, SentBy) == window + Total(steps, WidenedBy)
            && t.outq + Total(steps, SentBy) == Total(steps, FramedBy) + t.body.handed
  {
    RunRecords(window, steps);
    RecordedBytes(Exec(window, steps).value, window, steps, Runs(window, steps));
  }

  // ---- parking and waking up -----------------------------------------------

  /** The end of the stream went out. */
  predicate Ended(steps: seq<TxStep>)
  {
    steps != [] && ((Last(steps).Transmit? && Last(steps).fin) || Ended(Before(steps)))
  }

  /** ngtcp2 refused the stream, and its window was not widened since. */
  predicate Parked(steps: seq<TxStep>)
  {
    && steps != [] && !Last(steps).ExtendWindow?
    && (Last(steps).RefuseBlocked? || Last(steps).RefuseShut? || Parked(Before(steps)))
  }

  /** A read found everything handed out and the body open, and the application neither
      wrote nor finished since. */
  predicate Starved(window: nat, steps: seq<TxStep>)
    requires Exec(window, steps).Some?
  {
    && steps != [] && !Last(steps).WriteBody? && !Last(steps).FinishBody?
    && var past := Before(steps);
       if Last(steps).ReadBody? then Flatten(Runs(window, past)) == Written(past) && !Finished(past)
       else Starved(window, past)
  }

  lemma {:induction false} ReadStarves(t: Tx, window: nat, steps: seq<TxStep>, runs: seq<bytes>)
    requires Recorded(t, window, steps, runs) && t.body.base <= t.body.handed && Readable(t)
    ensures TakeFromSource(t).readBlocked <==> Flatten(runs) == Written(steps) && !Finished(steps)
  {
    RecordedBytes(t, window, steps, runs);
    QueuedRead(t.body, t.acked, Pieces(steps), |runs|, t.hasTrailers);
  }

  lemma {:induction false} ParkStep(t: Tx, step: TxStep, u: Tx)
    requires t.body.base <= t.body.handed && Legal(t, step) && u == Apply(t, step)
    ensures u.ended <==> t.ended || (step.Transmit? && step.fin)
    ensures u.gate.blocked <==> !step.ExtendWindow? && (step.RefuseBlocked? || step.RefuseShut? || t.gate.blocked)
    ensures step.ReadBody? ==> u.readBlocked == TakeFromSource(t).readBlocked
    ensures !step.ReadBody? ==> (u.readBlocked <==> t.readBlocked && !step.WriteBody? && !step.FinishBody?)
  {
    if MovesBody(step) {
      ParkBody(t, step);
    } else if step.Frame? || step.Transmit? || step.RefuseBlocked? || step.RefuseShut? || step.ExtendWindow? {
      ParkGate(t, step);
    } else {
      ParkCall(t, step);
    }
  }

  lemma {:induction false} ParkBody(t: Tx, step: TxStep)
    requires t.body.base <= t.body.handed && Legal(t, step) && MovesBody(step)
    ensures var u := Apply(t, step);
            && u.ended == t.ended && u.gate == t.gate
            && u.readBlocked == if step.ReadBody? then TakeFromSource(t).readBlocked
                                else t.readBlocked && !step.WriteBody?
  {
    match step
    case WriteBody(_) =>
    case ReadBody =>
    case Acknowledge(n) => assert Apply(t, step) == Acked(t, n);
  }

  lemma {:induction false} ParkGate(t: Tx, step: TxStep)
    requires t.body.base <= t.body.handed && Legal(t, step)
    requires step.Frame? || step.Transmit? || step.RefuseBlocked? || step.RefuseShut? || step.ExtendWindow?
    ensures var u := Apply(t, step);
            && (u.ended <==> t.ended || (step.Transmit? && step.fin))
            && (u.gate.blocked
                <==> !step.ExtendWindow? && (step.RefuseBlocked? || step.RefuseShut? || t.gate.blocked))
            && u.readBlocked == t.readBlocked
  {
  }

  lemma {:induction false} ParkCall(t: Tx, step: TxStep)
    requires t.body.base <= t.body.handed && Legal(t, step)
    requires step.SubmitResponse? || step.SubmitHead? || step.SubmitTrailers? || step.FinishBody? || step.ShutWrite?
    ensures var u := Apply(t, step);
            && u.ended == t.ended && u.gate.blocked == t.gate.blocked
            && (u.readBlocked <==> t.readBlocked && !step.FinishBody?)
  {
  }

  /** A stream is parked, and its end has gone out, exactly when its steps say so. */
  lemma {:induction false} ParkedAsTheStepsSay(window: nat, steps: seq<TxStep>)
    requires Exec(window, steps).Some?
    ensures var t := Exec(window, steps).value;
            && (t.ended <==> Ended(steps)) && (t.gate.blocked <==> Parked(steps))
            && (t.readBlocked <==> Starved(window, steps))
  {
    if steps != [] {
      ParkedAsTheStepsSay(window, Before(steps));
      ParkedOneMore(window, Before(steps), Last(steps), Exec(window, Before(steps)).value, Exec(window, steps).value);
    }
  }

  lemma {:induction false} ParkedOneMore(window: nat, past: seq<TxStep>, step: TxStep, t: Tx, u: Tx)
    requires Exec(window, past) == Some(t) && t.body.base <= t.body.handed && Legal(t, step) && u == Apply(t, step)
    ensures u.ended <==> t.ended || (step.Transmit? && step.fin)
    ensures u.gate.blocked <==> !step.ExtendWindow? && (step.RefuseBlocked? || step.RefuseShut? || t.gate.blocked)
    ensures u.readBlocked <==>
            && !step.WriteBody? && !step.FinishBody?
            && if step.ReadBody? then Flatten(Runs(window, past)) == Written(past) && !Finished(past) else t.readBlocked
  {
    ParkStep(t, step, u);
    if step.ReadBody? {
      RunRecords(window, past);
      ReadStarves(t, window, past, Runs(window, past));
    }
  }
}
