/** The response body queue: a FIFO of separately stored chunks with absolute
    offsets. nghttp3 borrows the chunks it is handed until they are acknowledged. */
module ResponseBody {
  import opened Common

  /** base: offset of the first byte of the queue's front; handed: offset already
      given to nghttp3; end: offset just past the last enqueued byte. */
  datatype BodyState = BodyState(q: seq<bytes>, base: nat, handed: nat, end: nat, fin: bool)

  const EMPTY_BODY := BodyState([], 0, 0, 0, false)

  function Push(b: BodyState, d: bytes): BodyState
  {
    b.(q := if |d| > 0 then b.q + [d] else b.q, end := b.end + |d|)
  }

  /** The walk over the queue from chunk k, which starts at `off`: the first chunk that
      ends past `handed`, from the hand-out point on, and the offset of its end. */
  function Scan(q: seq<bytes>, k: nat, off: nat, handed: nat): (r: Option<(bytes, nat)>)
    requires k <= |q| && off <= handed
    ensures r.Some? ==> r.value.1 > handed
    decreases |q| - k
  {
    if k == |q| then None
    else if handed < off + |q[k]| then Some((From(q[k], handed - off), off + |q[k]|))
    else Scan(q, k + 1, off + |q[k]|, handed)
  }

  /** Hand out the next run. `base <= handed` is what keeps the offset inside the
      chunk from wrapping below zero. */
  function Next(b: BodyState): (r: (BodyState, Option<bytes>))
    requires b.base <= b.handed
    ensures r.0.base <= r.0.handed
  {
    if b.handed >= b.end then (b, None)
    else
      match Scan(b.q, 0, b.base, b.handed)
      case None => (b, None)
      case Some(found) => (b.(handed := found.1), Some(found.0))
  }

  /** The first chunk from k on that does not lie wholly below the acknowledged offset,
      and where it starts. */
  function Release(q: seq<bytes>, k: nat, base: nat, acked: nat): (r: (nat, nat))
    requires k <= |q|
    ensures k <= r.0 <= |q| && (r.1 <= acked || r.1 == base)
    decreases |q| - k
  {
    if k == |q| || base + |q[k]| > acked then (k, base)
    else Release(q, k + 1, base + |q[k]|, acked)
  }

  /** Drop every leading chunk that is wholly acknowledged. */
  function Ack(b: BodyState, acked: nat): (r: BodyState)
    ensures r.base <= acked || r.base == b.base
    ensures r.handed == b.handed && r.end == b.end && r.fin == b.fin
  {
    var (n, base) := Release(b.q, 0, b.base, acked);
    b.(q := From(b.q, n), base := base)
  }

  function Backlog(b: BodyState): int
  {
    b.end - b.handed
  }

  // ---- the queue against the chunks that were ever pushed ------------------

  ghost predicate AllNonEmpty(chunks: seq<bytes>)
  {
    forall i | 0 <= i < |chunks| :: NonEmptyAt(chunks, i)
  }

  predicate NonEmptyAt(chunks: seq<bytes>, i: nat)
    requires i < |chunks|
  {
    chunks[i] != []
  }

  /** Offset just past the first k chunks. */
  ghost function Offset(chunks: seq<bytes>, k: nat): nat
    requires k <= |chunks|
    decreases k
  {
    if k == 0 then 0 else Offset(chunks, k - 1) + |chunks[k - 1]|
  }

  /** Offset just past chunk i. */
  ghost function EndOf(chunks: seq<bytes>, i: nat): nat
    requires i < |chunks|
  {
    Offset(chunks, i + 1)
  }

  /** `q` is the queue of `chunks` without the first `freed`. */
  ghost predicate Tail(q: seq<bytes>, chunks: seq<bytes>, freed: nat)
  {
    && freed <= |chunks| && |q| == |chunks| - freed
    && forall i: nat {:trigger SameAt(q, chunks, freed, i)} | freed <= i < |chunks| :: SameAt(q, chunks, freed, i)
  }

  predicate SameAt(q: seq<bytes>, chunks: seq<bytes>, freed: nat, i: nat)
    requires freed <= i < |chunks| && |q| == |chunks| - freed
  {
    q[i - freed] == chunks[i]
  }

  lemma {:induction false} TailPush(q: seq<bytes>, chunks: seq<bytes>, freed: nat, d: bytes)
    requires Tail(q, chunks, freed)
    ensures Tail(q + [d], chunks + [d], freed)
  {
    forall i: nat | freed <= i < |chunks| + 1
      ensures SameAt(q + [d], chunks + [d], freed, i)
    {
      assert i < |chunks| ==> SameAt(q, chunks, freed, i);
    }
  }

  lemma {:induction false} TailDrop(q: seq<bytes>, chunks: seq<bytes>, freed: nat, n: nat)
    requires Tail(q, chunks, freed) && n <= |q|
    ensures Tail(From(q, n), chunks, freed + n)
  {
    var stop := freed + n;
    forall i: nat | stop <= i < |chunks|
      ensures SameAt(From(q, n), chunks, stop, i)
    {
      assert SameAt(q, chunks, freed, i);
    }
  }

  lemma {:induction false} TailIs(q: seq<bytes>, chunks: seq<bytes>, freed: nat)
    requires Tail(q, chunks, freed)
    ensures q == chunks[freed..]
  {
    forall i | 0 <= i < |q|
      ensures q[i] == chunks[freed..][i]
    {
      assert SameAt(q, chunks, freed, freed + i);
    }
  }

  /** `b` is the queue over `chunks` with the first `freed` released and the first
      `given` handed out. */
  ghost predicate Represents(b: BodyState, chunks: seq<bytes>, freed: nat, given: nat)
  {
    && freed <= given <= |chunks|
    && AllNonEmpty(chunks)
    && Tail(b.q, chunks, freed)
    && b.base == Offset(chunks, freed)
    && b.handed == Offset(chunks, given)
    && b.end == Offset(chunks, |chunks|)
  }

  /** Offsets count bytes of the concatenation. */
  lemma {:induction false} OffsetIsLength(chunks: seq<bytes>, k: nat)
    requires k <= |chunks|
    ensures Offset(chunks, k) == |Flatten(chunks[..k])|
    decreases k
  {
    if k > 0 {
      OffsetIsLength(chunks, k - 1);
      assert chunks[..k] == chunks[..k - 1] + [chunks[k - 1]];
      FlattenAppend(chunks[..k - 1], chunks[k - 1]);
    }
  }

  /** Offsets grow strictly, because no stored chunk is empty. */
  lemma {:induction false} OffsetMono(chunks: seq<bytes>, i: nat, j: nat)
    requires AllNonEmpty(chunks) && i <= j <= |chunks|
    ensures Offset(chunks, i) <= Offset(chunks, j)
    ensures i < j ==> Offset(chunks, i) < Offset(chunks, j)
    decreases j
  {
    if i < j {
      OffsetMono(chunks, i, j - 1);
      assert NonEmptyAt(chunks, j - 1);
    }
  }

  lemma {:induction false} OffsetPush(chunks: seq<bytes>, d: bytes, k: nat)
    requires k <= |chunks|
    ensures Offset(chunks + [d], k) == Offset(chunks, k)
    decreases k
  {
    if k > 0 {
      OffsetPush(chunks, d, k - 1);
    }
  }

  lemma {:induction false} NonEmptyPush(chunks: seq<bytes>, d: bytes)
    requires AllNonEmpty(chunks) && d != []
    ensures AllNonEmpty(chunks + [d])
  {
    var more := chunks + [d];
    forall i | 0 <= i < |more|
      ensures NonEmptyAt(more, i)
    {
      assert i < |chunks| ==> NonEmptyAt(chunks, i);
    }
  }

  lemma {:induction false} PushRepresents(b: BodyState, chunks: seq<bytes>, freed: nat, given: nat, d: bytes)
    requires Represents(b, chunks, freed, given)
    ensures d == [] ==> Represents(Push(b, d), chunks, freed, given)
    ensures d != [] ==> Represents(Push(b, d), chunks + [d], freed, given)
  {
    if d != [] {
      NonEmptyPush(chunks, d);
      OffsetPush(chunks, d, |chunks|);
      OffsetPush(chunks, d, freed);
      OffsetPush(chunks, d, given);
      TailPush(b.q, chunks, freed, d);
    }
  }

  /** The walk lands exactly on the first chunk not yet handed out, at its start:
      the hand-out point is always a chunk boundary. */
  lemma {:induction false} ScanFinds(q: seq<bytes>, chunks: seq<bytes>, freed: nat, i: nat, given: nat)
    requires AllNonEmpty(chunks) && Tail(q, chunks, freed) && freed <= i <= given < |chunks|
    ensures Offset(chunks, i) <= Offset(chunks, given)
    ensures Scan(q, i - freed, Offset(chunks, i), Offset(chunks, given))
            == Some((chunks[given], Offset(chunks, given + 1)))
    decreases given - i
  {
    OffsetMono(chunks, i, given);
    assert NonEmptyAt(chunks, i) && SameAt(q, chunks, freed, i);
    if i < given {
      OffsetMono(chunks, i + 1, given);
      ScanFinds(q, chunks, freed, i + 1, given);
    }
  }

  lemma {:induction false} NextRepresents(b: BodyState, chunks: seq<bytes>, freed: nat, given: nat)
    requires Represents(b, chunks, freed, given)
    ensures b.base <= b.handed
    ensures given < |chunks| ==> Next(b).1 == Some(chunks[given])
                                 && Represents(Next(b).0, chunks, freed, given + 1)
    ensures given == |chunks| ==> Next(b) == (b, None)
  {
    OffsetMono(chunks, freed, given);
    if given < |chunks| {
      OffsetMono(chunks, given, |chunks|);
      ScanFinds(b.q, chunks, freed, freed, given);
    }
  }

  /** Release stops at the first chunk that is not wholly acknowledged. */
  lemma {:induction false} ReleaseStops(q: seq<bytes>, chunks: seq<bytes>, freed: nat, i: nat, acked: nat)
    returns (stop: nat)
    requires Tail(q, chunks, freed) && freed <= i <= |chunks|
    ensures i <= stop <= |chunks|
    ensures Release(q, i - freed, Offset(chunks, i), acked) == (stop - freed, Offset(chunks, stop))
    ensures stop > i ==> Offset(chunks, stop) <= acked
    ensures stop < |chunks| ==> acked < Offset(chunks, stop + 1)
    decreases |chunks| - i
  {
    stop := i;
    if i < |chunks| {
      assert SameAt(q, chunks, freed, i);
      if Offset(chunks, i + 1) <= acked {
        stop := ReleaseStops(q, chunks, freed, i + 1, acked);
      }
    }
  }

  /** What an acknowledgement within the hand-out point leaves queued. */
  lemma {:induction false} AckRepresents(b: BodyState, chunks: seq<bytes>, freed: nat, given: nat, acked: nat)
    returns (stop: nat)
    requires Represents(b, chunks, freed, given) && acked <= b.handed
    ensures freed <= stop && Represents(Ack(b, acked), chunks, stop, given)
    ensures stop > freed ==> Offset(chunks, stop) <= acked
    ensures stop < |chunks| ==> acked < Offset(chunks, stop + 1)
  {
    stop := ReleaseStops(b.q, chunks, freed, freed, acked);
    if stop > given {
      OffsetMono(chunks, given, stop);
      assert false;
    }
    TailDrop(b.q, chunks, freed, stop - freed);
  }

  // ---- whole runs ----------------------------------------------------------

  /** What happens to a body: the application appends, nghttp3 asks for the next
      run, nghttp3 reports `n` more bytes acknowledged. */
  datatype BodyOp = DoPush(data: bytes) | DoNext | DoAck(n: nat)

  datatype BodyRun = BodyRun(body: BodyState, acked: nat, outs: seq<bytes>)

  /** Run the operations in order. `None` marks a run in which nghttp3 acknowledges
      bytes it was never handed, which the environment rules out. */
  function Exec(ops: seq<BodyOp>): (r: Option<BodyRun>)
    ensures r.Some? ==> r.value.body.base <= r.value.body.handed
  {
    if ops == [] then Some(BodyRun(EMPTY_BODY, 0, []))
    else
      match Exec(ops[..|ops| - 1])
      case None => None
      case Some(s) => Apply(s, ops[|ops| - 1])
  }

  function Apply(s: BodyRun, op: BodyOp): (r: Option<BodyRun>)
    requires s.body.base <= s.body.handed
    ensures r.Some? ==> r.value.body.base <= r.value.body.handed
  {
    match op
    case DoPush(d) => Some(s.(body := Push(s.body, d)))
    case DoNext =>
      var (b, out) := Next(s.body);
      Some(s.(body := b, outs := if out.Some? then s.outs + [out.value] else s.outs))
    case DoAck(n) =>
      if s.acked + n > s.body.handed then None
      else Some(s.(body := Ack(s.body, s.acked + n), acked := s.acked + n))
  }

  /** The non-empty chunks pushed by a run, in order. */
  function Pushed(ops: seq<BodyOp>): seq<bytes>
  {
    if ops == [] then [] else WithPush(Pushed(ops[..|ops| - 1]), ops[|ops| - 1])
  }

  function WithPush(chunks: seq<bytes>, op: BodyOp): seq<bytes>
  {
    if op.DoPush? && op.data != [] then chunks + [op.data] else chunks
  }

  /** The queue holds exactly the chunks whose last byte is past `acked`. */
  ghost predicate HoldsExactly(q: seq<bytes>, chunks: seq<bytes>, freed: nat, acked: nat)
  {
    && Tail(q, chunks, freed)
    && forall i | 0 <= i < |chunks| :: HeldIff(chunks, freed, acked, i)
  }

  ghost predicate HeldIff(chunks: seq<bytes>, freed: nat, acked: nat, i: nat)
    requires i < |chunks|
  {
    i < freed <==> EndOf(chunks, i) <= acked
  }

  lemma {:induction false} HoldsFromStops(q: seq<bytes>, chunks: seq<bytes>, freed: nat, acked: nat)
    requires AllNonEmpty(chunks) && Tail(q, chunks, freed)
    requires freed > 0 ==> Offset(chunks, freed) <= acked
    requires freed < |chunks| ==> acked < Offset(chunks, freed + 1)
    ensures HoldsExactly(q, chunks, freed, acked)
  {
    forall i | 0 <= i < |chunks|
      ensures HeldIff(chunks, freed, acked, i)
    {
      if i < freed {
        OffsetMono(chunks, i + 1, freed);
      } else {
        OffsetMono(chunks, freed + 1, i + 1);
      }
    }
  }

  /** What every run keeps: the queue represents the pushed chunks, the runs handed
      out are the leading ones, and release is exact. */
  ghost predicate RunInv(s: BodyRun, chunks: seq<bytes>, freed: nat)
  {
    && Represents(s.body, chunks, freed, |s.outs|)
    && s.outs == chunks[..|s.outs|]
    && s.acked <= s.body.handed
    && HoldsExactly(s.body.q, chunks, freed, s.acked)
  }

  lemma {:induction false} PushKeeps(s: BodyRun, chunks: seq<bytes>, freed: nat, d: bytes)
    requires RunInv(s, chunks, freed) && d != []
    ensures RunInv(s.(body := Push(s.body, d)), chunks + [d], freed)
  {
    PushRepresents(s.body, chunks, freed, |s.outs|, d);
    var more := chunks + [d];
    assert more[..|s.outs|] == chunks[..|s.outs|];
    forall i | 0 <= i < |more|
      ensures HeldIff(more, freed, s.acked, i)
    {
      if i < |chunks| {
        assert HeldIff(chunks, freed, s.acked, i);
        OffsetPush(chunks, d, i + 1);
        assert EndOf(more, i) == EndOf(chunks, i);
      } else {
        OffsetPush(chunks, d, |chunks|);
        OffsetMono(chunks, |s.outs|, |chunks|);
      }
    }
  }

  lemma {:induction false} NextKeeps(s: BodyRun, chunks: seq<bytes>, freed: nat)
    requires RunInv(s, chunks, freed)
    requires s.body.base <= s.body.handed
    ensures var (b, out) := Next(s.body);
            RunInv(s.(body := b, outs := if out.Some? then s.outs + [out.value] else s.outs), chunks, freed)
  {
    NextRepresents(s.body, chunks, freed, |s.outs|);
    if |s.outs| < |chunks| {
      OffsetMono(chunks, |s.outs|, |s.outs| + 1);
      assert chunks[..|s.outs| + 1] == chunks[..|s.outs|] + [chunks[|s.outs|]];
    }
  }

  lemma {:induction false} AckKeeps(s: BodyRun, chunks: seq<bytes>, freed: nat, n: nat) returns (freed': nat)
    requires RunInv(s, chunks, freed)
    requires s.acked + n <= s.body.handed
    ensures RunInv(s.(body := Ack(s.body, s.acked + n), acked := s.acked + n), chunks, freed')
  {
    freed' := AckRepresents(s.body, chunks, freed, |s.outs|, s.acked + n);
    if freed > 0 {
      assert HeldIff(chunks, freed, s.acked, freed - 1);
    }
    HoldsFromStops(Ack(s.body, s.acked + n).q, chunks, freed', s.acked + n);
  }

  lemma {:induction false} DoNextKeeps(s: BodyRun, chunks: seq<bytes>, freed: nat)
    requires RunInv(s, chunks, freed) && s.body.base <= s.body.handed
    ensures RunInv(Apply(s, DoNext).value, chunks, freed)
  {
    NextKeeps(s, chunks, freed);
  }

  lemma {:induction false} ApplyKeeps(s: BodyRun, op: BodyOp, chunks: seq<bytes>, freed: nat) returns (freed': nat)
    requires RunInv(s, chunks, freed) && s.body.base <= s.body.handed && Apply(s, op).Some?
    ensures RunInv(Apply(s, op).value, WithPush(chunks, op), freed')
  {
    freed' := freed;
    match op
    case DoPush(d) =>
      if d != [] {
        PushKeeps(s, chunks, freed, d);
      }
    case DoNext => DoNextKeeps(s, chunks, freed);
    case DoAck(n) => freed' := AckKeeps(s, chunks, freed, n);
  }

  lemma {:induction false} RunKeeps(ops: seq<BodyOp>) returns (freed: nat)
    requires Exec(ops).Some?
    ensures RunInv(Exec(ops).value, Pushed(ops), freed)
  {
    if ops == [] {
      freed := 0;
    } else {
      var before := ops[..|ops| - 1];
      freed := RunKeeps(before);
      freed := ApplyKeeps(Exec(before).value, ops[|ops| - 1], Pushed(before), freed);
    }
  }

  /** Refinement to one flat byte string: under every interleaving of push, next
      and acknowledgement, the runs handed out are, byte for byte, the first
      `handed` bytes of everything pushed; each run is one whole chunk; and the
      backlog is what was pushed and not yet handed out. */
  lemma {:induction false} BodyRefinesByteString(ops: seq<BodyOp>)
    requires Exec(ops).Some?
    ensures var s := Exec(ops).value;
            var all := Flatten(Pushed(ops));
            && s.body.handed <= |all|
            && Flatten(s.outs) == all[..s.body.handed]
            && |s.outs| <= |Pushed(ops)| && s.outs == Pushed(ops)[..|s.outs|]
            && Backlog(s.body) == |all| - s.body.handed
  {
    var freed := RunKeeps(ops);
    var chunks, given := Pushed(ops), |Exec(ops).value.outs|;
    FlattenTake(chunks, given);
    OffsetIsLength(chunks, given);
    OffsetIsLength(chunks, |chunks|);
    assert chunks[..|chunks|] == chunks;
  }

  /** Borrowed buffers stay put: after every run the queue is exactly the pushed
      chunks that are not wholly acknowledged, unchanged and in order. So a chunk
      holding any handed-out byte at or past the acknowledged offset is still
      queued, and only the front chunk can be partly acknowledged. */
  lemma {:induction false} BorrowedChunksRetained(ops: seq<BodyOp>) returns (freed: nat)
    requires Exec(ops).Some?
    ensures HoldsExactly(Exec(ops).value.body.q, Pushed(ops), freed, Exec(ops).value.acked)
    ensures Exec(ops).value.body.q == Pushed(ops)[freed..]
    ensures forall i | freed < i < |Pushed(ops)| :: Exec(ops).value.acked < EndOf(Pushed(ops), i) - |Pushed(ops)[i]|
    ensures Exec(ops).value.body.base <= Exec(ops).value.acked
  {
    freed := RunKeeps(ops);
    TailIs(Exec(ops).value.body.q, Pushed(ops), freed);
    OnlyFrontPartlyAcked(Exec(ops).value, Pushed(ops), freed);
  }

  lemma {:induction false} OnlyFrontPartlyAcked(s: BodyRun, chunks: seq<bytes>, freed: nat)
    requires RunInv(s, chunks, freed)
    ensures forall i | freed < i < |chunks| :: s.acked < EndOf(chunks, i) - |chunks[i]|
    ensures s.body.base <= s.acked
  {
    forall i | freed < i < |chunks|
      ensures s.acked < EndOf(chunks, i) - |chunks[i]|
    {
      assert EndOf(chunks, i) == Offset(chunks, i) + |chunks[i]|;
      OffsetMono(chunks, freed + 1, i);
      assert HeldIff(chunks, freed, s.acked, freed);
    }
    if freed > 0 {
      assert HeldIff(chunks, freed, s.acked, freed - 1);
    }
  }

  // ---- the object ----------------------------------------------------------

  /** The queue as it is kept: the fields change in place, the two walks are loops. */
  class Body {
    var q: seq<bytes>
    var base: nat
    var handed: nat
    var end: nat
    var fin: bool

    ghost function State(): BodyState
      reads this
    {
      BodyState(q, base, handed, end, fin)
    }

    constructor ()
      ensures State() == EMPTY_BODY
    {
      q, base, handed, end, fin := [], 0, 0, 0, false;
    }

    method PushChunk(d: bytes)
      modifies this
      ensures State() == Push(old(State()), d)
    {
      if |d| > 0 {
        q := q + [d];
      }
      end := end + |d|;
    }

    /** `run` is the slice nghttp3 borrows: the rest of one queued chunk. */
    method NextRun() returns (found: bool, run: bytes)
      requires base <= handed
      modifies this`handed
      ensures (State(), if found then Some(run) else None) == Next(old(State()))
    {
      found, run := false, [];
      if handed >= end {
        return;
      }
      var off: nat, i: nat := base, 0;
      while i < |q|
        invariant 0 <= i <= |q|
        invariant off <= handed && handed == old(handed)
        invariant Scan(q, 0, base, handed) == Scan(q, i, off, handed)
      {
        if handed < off + |q[i]| {
          var within := handed - off;
          found, run := true, q[i][within..];
          handed := off + |q[i]|;
          return;
        }
        off := off + |q[i]|;
        i := i + 1;
      }
    }

    method AckTo(nAbs: nat)
      modifies this`q, this`base
      ensures State() == Ack(old(State()), nAbs)
    {
      ghost var n := 0;
      while |q| > 0 && base + |q[0]| <= nAbs
        invariant n <= |old(q)| && q == From(old(q), n)
        invariant Release(old(q), n, base, nAbs) == Release(old(q), 0, old(base), nAbs)
        decreases |q|
      {
        PopFront(old(q), q, n);
        base := base + |q[0]|;
        q := q[1..];
        n := n + 1;
      }
    }
  }
}
