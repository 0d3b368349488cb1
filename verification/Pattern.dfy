/** The deterministic payload of the load client: byte i of a stream is i modulo
    256, made chunk by chunk on both sides. */
module Pattern {
  import opened Common

  /** What both sides mean: `n` bytes of the stream from `start` on. */
  function Stream(start: nat, n: nat): (s: bytes)
    ensures |s| == n && forall i | 0 <= i < n :: s[i] == (start + i) % 256
  {
    seq(n, i requires 0 <= i < n => (start + i) % 256)
  }

  lemma {:induction false} StreamJoin(start: nat, m: nat, n: nat)
    ensures Stream(start, m) + Stream(start + m, n) == Stream(start, m + n)
  {
    var joined := Stream(start, m) + Stream(start + m, n);
    forall i | 0 <= i < m + n ensures joined[i] == Stream(start, m + n)[i] {
    }
  }

  // ---- The client: rotate, repeat and cut ---------------------------------

  function Period(): (p: bytes)
    ensures |p| == 256 && forall i | 0 <= i < 256 :: p[i] == i
  {
    seq(256, i requires 0 <= i < 256 => i)
  }

  function Repeat(s: bytes, times: nat): (r: bytes)
    ensures |r| == |s| * times
  {
    if times == 0 then [] else Repeat(s, times - 1) + s
  }

  function GenChunk(start: nat, n: nat): bytes
  {
    var s := start % 256;
    var rotated := Period()[s..] + Period()[..s];
    var reps := n / 256 + 1;
    Repeat(rotated, reps)[..n]
  }

  lemma {:induction false} RotatedIsStream(start: nat)
    ensures Period()[start % 256..] + Period()[..start % 256] == Stream(start, 256)
  {
    var s := start % 256;
    var rotated := Period()[s..] + Period()[..s];
    forall i | 0 <= i < 256 ensures rotated[i] == Stream(start, 256)[i] {
      RotatedByte(start, i);
    }
  }

  lemma {:induction false} RotatedByte(start: nat, i: nat)
    requires i < 256
    ensures (start + i) % 256 == (if start % 256 + i < 256 then start % 256 + i else start % 256 + i - 256)
  {
  }

  lemma {:induction false} StreamIsPeriodic(start: nat, k: nat)
    ensures Stream(start + 256 * k, 256) == Stream(start, 256)
  {
    forall i | 0 <= i < 256 ensures Stream(start + 256 * k, 256)[i] == Stream(start, 256)[i] {
      assert (start + 256 * k + i) % 256 == (start + i) % 256;
    }
  }

  lemma {:induction false} RepeatedIsStream(start: nat, times: nat)
    ensures Repeat(Stream(start, 256), times) == Stream(start, 256 * times)
  {
    if times > 0 {
      RepeatedIsStream(start, times - 1);
      StreamIsPeriodic(start, times - 1);
      StreamJoin(start, 256 * (times - 1), 256);
    }
  }

  /** The rotated and repeated period is the stream: for every start and length
      it has that length and byte i is (start + i) modulo 256. */
  lemma {:induction false} GenChunkIsStream(start: nat, n: nat)
    ensures GenChunk(start, n) == Stream(start, n)
  {
    var reps := n / 256 + 1;
    RotatedIsStream(start);
    RepeatedIsStream(start, reps);
    assert Stream(start, 256 * reps)[..n] == Stream(start, n);
  }

  // ---- The server: one byte at a time -------------------------------------

  method GenChunkDirect(start: nat, n: nat) returns (b: array<byte>)
    ensures b[..] == Stream(start, n)
  {
    b := new byte[n];
    for i := 0 to n
      invariant b[..i] == Stream(start, n)[..i]
    {
      b[i] := (start + i) % 256;
      assert b[..i + 1] == b[..i] + [b[i]];
    }
    assert b[..n] == b[..];
  }

  // ---- The walks ----------------------------------------------------------

  /** The client's upload body; its hash runs over the same chunks. */
  method BodyGen(total: nat, chunk: nat) returns (chunks: seq<bytes>)
    requires chunk > 0
    ensures Flatten(chunks) == Stream(0, total)
    ensures forall k | 0 <= k < |chunks| - 1 :: |chunks[k]| == chunk
    ensures forall k | 0 <= k < |chunks| :: 0 < |chunks[k]| <= chunk
  {
    chunks := [];
    var off := 0;
    while off < total
      invariant off <= total
      invariant Flatten(chunks) == Stream(0, off)
      invariant off < total ==> forall k | 0 <= k < |chunks| :: |chunks[k]| == chunk
      invariant forall k | 0 <= k < |chunks| - 1 :: |chunks[k]| == chunk
      invariant forall k | 0 <= k < |chunks| :: 0 < |chunks[k]| <= chunk
    {
      var n := if chunk < total - off then chunk else total - off;
      GenChunkIsStream(off, n);
      FlattenAppend(chunks, GenChunk(off, n));
      StreamJoin(0, off, n);
      chunks := chunks + [GenChunk(off, n)];
      off := off + n;
    }
  }

  /** How much of the stream `writes` chunks cover. */
  function Covered(total: int, chunk: nat, writes: nat): nat
  {
    if total <= 0 then 0 else if writes * chunk < total then writes * chunk else total
  }

  lemma {:induction false} CoveredGrows(total: int, chunk: nat, writes: nat)
    requires Covered(total, chunk, writes) < total
    ensures var off := Covered(total, chunk, writes);
            Covered(total, chunk, writes + 1) == off + (if total - off < chunk then total - off else chunk)
  {
    assert (writes + 1) * chunk == writes * chunk + chunk;
  }

  lemma {:induction false} CoveredAll(total: int, chunk: nat, writes: nat, more: nat)
    requires Covered(total, chunk, writes) >= total && writes <= more
    ensures Covered(total, chunk, more) == Covered(total, chunk, writes)
  {
    assert more * chunk == writes * chunk + (more - writes) * chunk;
  }

  /** The server's download loop; `writesOk` is how many writes succeed. */
  method Download(total: int, chunk: nat, writesOk: nat) returns (body: bytes)
    requires chunk > 0
    ensures body == Stream(0, Covered(total, chunk, writesOk))
  {
    body := [];
    var off, writes := 0, 0;
    while off < total
      invariant writes <= writesOk && off == Covered(total, chunk, writes)
      invariant body == Stream(0, off)
      decreases total - off
    {
      var n := chunk;
      if total - off < n {
        n := total - off;
      }
      var b := GenChunkDirect(off, n);
      if writes == writesOk {
        return;
      }
      StreamJoin(0, off, n);
      CoveredGrows(total, chunk, writes);
      body := body + b[..];
      off, writes := off + n, writes + 1;
    }
    CoveredAll(total, chunk, writes, writesOk);
  }
}
