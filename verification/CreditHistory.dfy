/** A connection's counters against its history: every total the shim keeps is the sum
    of what the steps of the run brought. */
module CreditHistory {
  import opened Common
  import opened Connection
  import opened ConnectionRuns

  // ---- adding up over a run ------------------------------------------------

  /** What the steps of a run add up to. */
  function Total(cfg: Config, c: Conn, steps: seq<Step>, amount: (Conn, Step) -> nat): nat
    requires Wf(c) && Run(cfg, c, steps).Some?
    decreases |steps|
  {
    if steps == [] then 0
    else amount(c, steps[0]) + Total(cfg, Apply(cfg, c, steps[0]), steps[1..], amount)
  }

  /** The step moves the counter by what it brings and takes. */
  ghost predicate Counts(cfg: Config, c: Conn, step: Step, counter: Conn -> nat, more: (Conn, Step) -> nat,
                         less: (Conn, Step) -> nat)
    requires Wf(c) && Legal(c, step)
  {
    Inv(cfg, c) ==> counter(Apply(cfg, c, step)) + less(c, step) == counter(c) + more(c, step)
  }

  lemma {:induction false} RunCounts(cfg: Config, c: Conn, steps: seq<Step>, counter: Conn -> nat,
                                     more: (Conn, Step) -> nat, less: (Conn, Step) -> nat)
    requires Inv(cfg, c) && Wf(c) && Run(cfg, c, steps).Some?
    requires forall d: Conn, step: Step {:trigger Counts(cfg, d, step, counter, more, less)}
               | Wf(d) && Legal(d, step) :: Counts(cfg, d, step, counter, more, less)
    ensures counter(Run(cfg, c, steps).value) + Total(cfg, c, steps, less)
            == counter(c) + Total(cfg, c, steps, more)
    decreases |steps|
  {
    if steps != [] {
      assert Counts(cfg, c, steps[0], counter, more, less);
      StepKeeps(cfg, c, steps[0]);
      RunCounts(cfg, Apply(cfg, c, steps[0]), steps[1..], counter, more, less);
    }
  }

  function Nothing(c: Conn, step: Step): nat
  {
    0
  }

  lemma {:induction false} NothingAddsUp(cfg: Config, c: Conn, steps: seq<Step>)
    requires Wf(c) && Run(cfg, c, steps).Some?
    ensures Total(cfg, c, steps, Nothing) == 0
    decreases |steps|
  {
    if steps != [] {
      NothingAddsUp(cfg, Apply(cfg, c, steps[0]), steps[1..]);
    }
  }

  // ---- what each step brings -----------------------------------------------

  predicate Receives(step: Step)
  {
    step.OnPacket? && (step.p.RecvStreamData? || step.p.DiscardData?)
  }

  /** Bytes the peer sent, on the connection and on stream `id`. */
  function Arrived(c: Conn, step: Step): nat
  {
    if Receives(step) then step.p.len else 0
  }

  function ArrivedOn(step: Step, id: int): nat
  {
    if Receives(step) && step.p.id == id then step.p.len else 0
  }

  /** nghttp3 was given the data and took it. */
  predicate Taken(c: Conn, step: Step)
  {
    step.OnPacket? && step.p.RecvStreamData? && c.life.h3 && step.p.rv >= 0
  }

  /** Bytes of stream `id` that are given back to the peer: those nghttp3 consumed at
      once, those it consumed later, those the application consumed. */
  function ReturnedOn(c: Conn, step: Step, id: int): nat
  {
    if Taken(c, step) && step.p.id == id then step.p.rv
    else if step.OnPacket? && step.p.DeferredConsume? && step.p.id == id then step.p.n
    else if step.OnCall? && step.a.Consume? && step.a.id == id then step.a.n
    else 0
  }

  /** The same on the connection, where discarded bytes are given back as well. */
  function Returned(c: Conn, step: Step): nat
  {
    if Taken(c, step) then step.p.rv
    else if step.OnPacket? && step.p.DiscardData? then step.p.len
    else if step.OnPacket? && step.p.DeferredConsume? then step.p.n
    else if step.OnCall? && step.a.Consume? then step.a.n
    else 0
  }

  /** Body bytes given to the application, and those it gave back. */
  function ToApp(c: Conn, step: Step): nat
  {
    if Taken(c, step) then step.p.body else 0
  }

  function FromApp(c: Conn, step: Step): nat
  {
    if step.OnCall? && step.a.Consume? then step.a.n else 0
  }

  /** Bytes nghttp3 keeps for later, and those it consumed then. */
  function ToH3(c: Conn, step: Step): nat
  {
    if Taken(c, step) then step.p.kept else 0
  }

  function FromH3(c: Conn, step: Step): nat
  {
    if step.OnPacket? && step.p.DeferredConsume? then step.p.n else 0
  }

  /** Bytes thrown away: before HTTP/3 was set up, and once the connection is ending. */
  function TooEarly(c: Conn, step: Step): nat
  {
    if step.OnPacket? && step.p.RecvStreamData? && !c.life.h3 && !c.life.wantClose && !c.life.closed then step.p.len
    else 0
  }

  function TooLate(c: Conn, step: Step): nat
  {
    if step.OnPacket? && step.p.RecvStreamData? && !Taken(c, step) then step.p.len - TooEarly(c, step) else 0
  }

  /** Request streams opened and closed. */
  function Opens(c: Conn, step: Step): nat
  {
    if step.OnPacket? && step.p.StreamOpen? && IsRequest(step.p.id) then 1 else 0
  }

  function Closes(c: Conn, step: Step): nat
  {
    if step.OnPacket? && step.p.StreamClose? && IsRequest(step.p.id) then 1 else 0
  }

  /** Bytes the peer lets the connection send, and those that went out. */
  function Allowed(c: Conn, step: Step): nat
  {
    if step.OnPacket? && step.p.ExtendMaxData? then step.p.n else 0
  }

  function SentOut(c: Conn, step: Step): nat
  {
    if step.OnWrite? && (step.w.More? || step.w.Packet?) then step.w.n else 0
  }

  // ---- one step ------------------------------------------------------------

  predicate MovesCredit(step: Step)
  {
    match step
    case OnPacket(p) => p.StreamOpen? || p.StreamClose? || p.RecvStreamData? || p.DiscardData? || p.DeferredConsume?
    case OnCall(a) => a.Consume?
    case _ => false
  }

  lemma {:induction false} QuietCredit(cfg: Config, c: Conn, step: Step)
    requires Wf(c) && Legal(c, step) && !MovesCredit(step)
    ensures Apply(cfg, c, step).credit == c.credit
  {
    match step
    case OnPacket(p) => QuietPacketCredit(cfg, c, p);
    case OnWrite(w) => assert ApplyWrite(c, w).credit == c.credit;
    case OnCall(a) => QuietCallCredit(c, a);
    case ExpiryFailed =>
  }

  lemma {:induction false} FlowStep(cfg: Config, c: Conn, step: Step, id: int)
    requires Wf(c) && Legal(c, step) && MovesCredit(step) && id >= 0
    ensures var f, g := FlowOf(c.credit, id), FlowOf(Apply(cfg, c, step).credit, id);
            && g.received == f.received + ArrivedOn(step, id)
            && g.credited == f.credited + ReturnedOn(c, step, id)
  {
    match step
    case OnPacket(p) => FlowPacket(cfg, c, p, id);
    case OnCall(a) => ConsumeCredit(c, a.id, a.n);
  }

  lemma {:induction false} FlowPacket(cfg: Config, c: Conn, p: PacketStep, id: int)
    requires Wf(c) && PacketLegal(c, p) && MovesCredit(OnPacket(p)) && id >= 0
    ensures var f, g := FlowOf(c.credit, id), FlowOf(ApplyPacket(cfg, c, p).credit, id);
            && g.received == f.received + ArrivedOn(OnPacket(p), id)
            && g.credited == f.credited + ReturnedOn(c, OnPacket(p), id)
  {
    match p
    case DiscardData(sid, len) => DiscardCredit(cfg, c, sid, len);
    case DeferredConsume(sid, n) => DeferredCredit(cfg, c, sid, n);
    case _ =>
  }

  /** The credit record `m` is `k` moved by the step. */
  predicate Moved(k: Credit, m: Credit, c: Conn, step: Step)
  {
    && m.received == k.received + Arrived(c, step)
    && m.credited == k.credited + Returned(c, step)
    && m.appHeld + FromApp(c, step) == k.appHeld + ToApp(c, step)
    && m.deferred + FromH3(c, step) == k.deferred + ToH3(c, step)
    && m.early == k.early + TooEarly(c, step)
    && m.dropped == k.dropped + TooLate(c, step)
    && m.started == k.started + Opens(c, step)
    && m.finished == k.finished + Closes(c, step)
  }

  lemma {:induction false} StepMoves(cfg: Config, c: Conn, step: Step)
    requires Wf(c) && Legal(c, step) && MovesCredit(step)
    ensures Moved(c.credit, Apply(cfg, c, step).credit, c, step)
  {
    match step
    case OnPacket(p) => PacketMoves(cfg, c, p);
    case OnCall(a) => ConsumeCredit(c, a.id, a.n);
  }

  lemma {:induction false} PacketMoves(cfg: Config, c: Conn, p: PacketStep)
    requires Wf(c) && PacketLegal(c, p) && MovesCredit(OnPacket(p))
    ensures Moved(c.credit, ApplyPacket(cfg, c, p).credit, c, OnPacket(p))
  {
    match p
    case DiscardData(sid, len) => DiscardCredit(cfg, c, sid, len);
    case DeferredConsume(sid, n) => DeferredCredit(cfg, c, sid, n);
    case _ =>
  }

  lemma {:induction false} SendLeftStep(cfg: Config, c: Conn, step: Step)
    requires Wf(c) && Legal(c, step)
    ensures Apply(cfg, c, step).sendLeft + SentOut(c, step) == c.sendLeft + Allowed(c, step)
  {
    match step
    case OnPacket(p) => assert !p.ExtendMaxData? ==> ApplyPacket(cfg, c, p).sendLeft == c.sendLeft;
    case OnWrite(w) => assert !w.More? && !w.Packet? ==> ApplyWrite(c, w).sendLeft == c.sendLeft;
    case OnCall(a) => assert ApplyCall(c, a).sendLeft == c.sendLeft;
    case ExpiryFailed =>
  }

  // ---- every run -----------------------------------------------------------

  /** The step moves a counter of the credit record by what it brings and takes. */
  ghost predicate MovesBy(cfg: Config, c: Conn, step: Step, part: Credit -> nat, more: (Conn, Step) -> nat,
                          less: (Conn, Step) -> nat)
    requires Wf(c) && Legal(c, step)
  {
    if MovesCredit(step) then part(Apply(cfg, c, step).credit) + less(c, step) == part(c.credit) + more(c, step)
    else more(c, step) == 0 == less(c, step)
  }

  /** A counter of the credit record over a run. */
  lemma {:induction false} CreditTotal(cfg: Config, adm: Admission, sendLeft: nat, steps: seq<Step>,
                                       part: Credit -> nat, more: (Conn, Step) -> nat, less: (Conn, Step) -> nat)
    requires var c := Accept(cfg, adm, sendLeft); Run(cfg, c, steps).Some? && part(c.credit) == 0
    requires forall d: Conn, step: Step {:trigger MovesBy(cfg, d, step, part, more, less)}
               | Wf(d) && Legal(d, step) :: MovesBy(cfg, d, step, part, more, less)
    ensures var c := Accept(cfg, adm, sendLeft);
            part(Run(cfg, c, steps).value.credit) + Total(cfg, c, steps, less) == Total(cfg, c, steps, more)
  {
    var c := Accept(cfg, adm, sendLeft);
    AcceptInv(cfg, adm, sendLeft);
    var counter := (d: Conn) => part(d.credit);
    forall d: Conn, step: Step | Wf(d) && Legal(d, step)
      ensures Counts(cfg, d, step, counter, more, less)
    {
      assert MovesBy(cfg, d, step, part, more, less);
      if !MovesCredit(step) {
        QuietCredit(cfg, d, step);
      }
    }
    RunCounts(cfg, c, steps, counter, more, less);
  }

  /** The same for a counter that only grows. */
  lemma {:induction false} CreditSum(cfg: Config, adm: Admission, sendLeft: nat, steps: seq<Step>,
                                     part: Credit -> nat, more: (Conn, Step) -> nat)
    requires var c := Accept(cfg, adm, sendLeft); Run(cfg, c, steps).Some? && part(c.credit) == 0
    requires forall d: Conn, step: Step {:trigger MovesBy(cfg, d, step, part, more, Nothing)}
               | Wf(d) && Legal(d, step) :: MovesBy(cfg, d, step, part, more, Nothing)
    ensures var c := Accept(cfg, adm, sendLeft);
            part(Run(cfg, c, steps).value.credit) == Total(cfg, c, steps, more)
  {
    CreditTotal(cfg, adm, sendLeft, steps, part, more, Nothing);
    NothingAddsUp(cfg, Accept(cfg, adm, sendLeft), steps);
  }

  lemma {:induction false} ReceivedOnStream(cfg: Config, adm: Admission, sendLeft: nat, steps: seq<Step>, id: int)
    requires Run(cfg, Accept(cfg, adm, sendLeft), steps).Some? && id >= 0
    ensures var c := Accept(cfg, adm, sendLeft);
            FlowOf(Run(cfg, c, steps).value.credit, id).received
            == Total(cfg, c, steps, (d, step) => ArrivedOn(step, id))
  {
    var part, more := (k: Credit) => FlowOf(k, id).received, (d: Conn, step: Step) => ArrivedOn(step, id);
    forall d: Conn, step: Step | Wf(d) && Legal(d, step)
      ensures MovesBy(cfg, d, step, part, more, Nothing)
    {
      if MovesCredit(step) {
        FlowStep(cfg, d, step, id);
      }
    }
    CreditSum(cfg, adm, sendLeft, steps, part, more);
  }

  lemma {:induction false} ReturnedOnStream(cfg: Config, adm: Admission, sendLeft: nat, steps: seq<Step>, id: int)
    requires Run(cfg, Accept(cfg, adm, sendLeft), steps).Some? && id >= 0
    ensures var c := Accept(cfg, adm, sendLeft);
            FlowOf(Run(cfg, c, steps).value.credit, id).credited
            == Total(cfg, c, steps, (d, step) => ReturnedOn(d, step, id))
  {
    var part, more := (k: Credit) => FlowOf(k, id).credited, (d: Conn, step: Step) => ReturnedOn(d, step, id);
    forall d: Conn, step: Step | Wf(d) && Legal(d, step)
      ensures MovesBy(cfg, d, step, part, more, Nothing)
    {
      if MovesCredit(step) {
        FlowStep(cfg, d, step, id);
      }
    }
    CreditSum(cfg, adm, sendLeft, steps, part, more);
  }

  /** Every received byte of a run is where the steps put it: given back, with the
      application, with nghttp3 or thrown away. */
  lemma {:induction false} BytesFollowTheSteps(cfg: Config, adm: Admission, sendLeft: nat, steps: seq<Step>)
    requires Run(cfg, Accept(cfg, adm, sendLeft), steps).Some?
    ensures var c := Accept(cfg, adm, sendLeft);
            var k := Run(cfg, c, steps).value.credit;
            && k.received == Total(cfg, c, steps, Arrived) && k.credited == Total(cfg, c, steps, Returned)
            && k.appHeld + Total(cfg, c, steps, FromApp) == Total(cfg, c, steps, ToApp)
            && k.deferred + Total(cfg, c, steps, FromH3) == Total(cfg, c, steps, ToH3)
            && k.early == Total(cfg, c, steps, TooEarly) && k.dropped == Total(cfg, c, steps, TooLate)
  {
    var received, credited := (k: Credit) => k.received, (k: Credit) => k.credited;
    var early, dropped := (k: Credit) => k.early, (k: Credit) => k.dropped;
    forall d: Conn, step: Step | Wf(d) && Legal(d, step)
      ensures MovesBy(cfg, d, step, received, Arrived, Nothing) && MovesBy(cfg, d, step, credited, Returned, Nothing)
      ensures MovesBy(cfg, d, step, early, TooEarly, Nothing) && MovesBy(cfg, d, step, dropped, TooLate, Nothing)
    {
      if MovesCredit(step) {
        StepMoves(cfg, d, step);
      }
    }
    CreditSum(cfg, adm, sendLeft, steps, received, Arrived);
    CreditSum(cfg, adm, sendLeft, steps, credited, Returned);
    CreditSum(cfg, adm, sendLeft, steps, early, TooEarly);
    CreditSum(cfg, adm, sendLeft, steps, dropped, TooLate);
    HeldFollowsTheSteps(cfg, adm, sendLeft, steps);
  }

  lemma {:induction false} HeldFollowsTheSteps(cfg: Config, adm: Admission, sendLeft: nat, steps: seq<Step>)
    requires Run(cfg, Accept(cfg, adm, sendLeft), steps).Some?
    ensures var c := Accept(cfg, adm, sendLeft);
            var k := Run(cfg, c, steps).value.credit;
            && k.appHeld + Total(cfg, c, steps, FromApp) == Total(cfg, c, steps, ToApp)
            && k.deferred + Total(cfg, c, steps, FromH3) == Total(cfg, c, steps, ToH3)
  {
    var appHeld, deferred := (k: Credit) => k.appHeld, (k: Credit) => k.deferred;
    forall d: Conn, step: Step | Wf(d) && Legal(d, step)
      ensures MovesBy(cfg, d, step, appHeld, ToApp, FromApp) && MovesBy(cfg, d, step, deferred, ToH3, FromH3)
    {
      if MovesCredit(step) {
        StepMoves(cfg, d, step);
      }
    }
    CreditTotal(cfg, adm, sendLeft, steps, appHeld, ToApp, FromApp);
    CreditTotal(cfg, adm, sendLeft, steps, deferred, ToH3, FromH3);
  }

  /** The window a stream's peer can still use is the initial one less what arrived on
      that stream and was not given back on that stream. */
  lemma {:induction false} StreamWindowFollowsTheSteps(cfg: Config, adm: Admission, sendLeft: nat, steps: seq<Step>,
                                                       id: int)
    requires Run(cfg, Accept(cfg, adm, sendLeft), steps).Some? && id >= 0
    ensures var c := Accept(cfg, adm, sendLeft);
            var f := FlowOf(Run(cfg, c, steps).value.credit, id);
            var came := Total(cfg, c, steps, (d, step) => ArrivedOn(step, id));
            var back := Total(cfg, c, steps, (d, step) => ReturnedOn(d, step, id));
            && f.received == came && f.credited == back && back <= came
            && f.max - f.received == (if id % 4 < 2 then InitialBidiWindow(cfg) else UNI_WINDOW) - (came - back)
  {
    ReceivedOnStream(cfg, adm, sendLeft, steps, id);
    ReturnedOnStream(cfg, adm, sendLeft, steps, id);
    AcceptInv(cfg, adm, sendLeft);
    RunKeeps(cfg, Accept(cfg, adm, sendLeft), steps);
    var k := Run(cfg, Accept(cfg, adm, sendLeft), steps).value.credit;
    assert id in k.flows ==> FlowInv(k, id);
  }

  /** The same for the connection; a request stream that closed makes room for one more,
      and the connection sends no more than it was allowed to. */
  lemma {:induction false} ConnectionWindowFollowsTheSteps(cfg: Config, adm: Admission, sendLeft: nat,
                                                           steps: seq<Step>)
    requires Run(cfg, Accept(cfg, adm, sendLeft), steps).Some?
    ensures var start := Accept(cfg, adm, sendLeft);
            var c := Run(cfg, start, steps).value;
            var begun, over := Total(cfg, start, steps, Opens), Total(cfg, start, steps, Closes);
            && c.credit.maxData - c.credit.received
               == InitialMaxData(cfg) - (Total(cfg, start, steps, Arrived) - Total(cfg, start, steps, Returned))
            && |c.credit.open| == begun - over
            && c.credit.maxBidi - c.credit.started == InitialMaxStreams(cfg) - (begun - over)
            && c.sendLeft == sendLeft + Total(cfg, start, steps, Allowed) - Total(cfg, start, steps, SentOut)
  {
    var start := Accept(cfg, adm, sendLeft);
    BytesFollowTheSteps(cfg, adm, sendLeft, steps);
    StreamsCounted(cfg, adm, sendLeft, steps);
    AcceptInv(cfg, adm, sendLeft);
    RunKeeps(cfg, start, steps);
    var counter := (d: Conn) => d.sendLeft;
    forall d: Conn, step: Step | Wf(d) && Legal(d, step)
      ensures Counts(cfg, d, step, counter, Allowed, SentOut)
    {
      SendLeftStep(cfg, d, step);
    }
    RunCounts(cfg, start, steps, counter, Allowed, SentOut);
  }

  lemma {:induction false} StreamsCounted(cfg: Config, adm: Admission, sendLeft: nat, steps: seq<Step>)
    requires Run(cfg, Accept(cfg, adm, sendLeft), steps).Some?
    ensures var c := Accept(cfg, adm, sendLeft);
            var k := Run(cfg, c, steps).value.credit;
            k.started == Total(cfg, c, steps, Opens) && k.finished == Total(cfg, c, steps, Closes)
  {
    var started, finished := (k: Credit) => k.started, (k: Credit) => k.finished;
    forall d: Conn, step: Step | Wf(d) && Legal(d, step)
      ensures MovesBy(cfg, d, step, started, Opens, Nothing) && MovesBy(cfg, d, step, finished, Closes, Nothing)
    {
      if MovesCredit(step) {
        StepMoves(cfg, d, step);
      }
    }
    CreditSum(cfg, adm, sendLeft, steps, started, Opens);
    CreditSum(cfg, adm, sendLeft, steps, finished, Closes);
  }
}
