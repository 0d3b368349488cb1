/** WebSocket framing of the load client: the masked frame printer, the parser
    of unmasked server frames, and how the parser behaves when the bytes come
    in pieces (section 5.2 of RFC 6455). */
module WebSocket {
  import opened Common

  const KEY: bytes := [0x21, 0x43, 0x65, 0x87]
  const TWO_TO_THE_64 := 0x1_0000_0000_0000_0000

  // ---- Exclusive or and big-endian numbers --------------------------------

  /** Exclusive or of the lowest `bits` bits. */
  function Xor(a: nat, b: nat, bits: nat): nat
  {
    if bits == 0 then 0
    else 2 * Xor(a / 2, b / 2, bits - 1) + (if a % 2 == b % 2 then 0 else 1)
  }

  function Power(base: nat, k: nat): nat
  {
    if k == 0 then 1 else base * Power(base, k - 1)
  }

  lemma {:induction false} XorBelow(a: nat, b: nat, bits: nat)
    ensures Xor(a, b, bits) < Power(2, bits)
  {
    if bits > 0 {
      XorBelow(a / 2, b / 2, bits - 1);
    }
  }

  lemma {:induction false} XorTwice(a: nat, b: nat, bits: nat)
    requires a < Power(2, bits)
    ensures Xor(Xor(a, b, bits), b, bits) == a
  {
    if bits > 0 {
      var x := Xor(a / 2, b / 2, bits - 1);
      assert Xor(a, b, bits) / 2 == x;
      XorTwice(a / 2, b / 2, bits - 1);
    }
  }

  lemma {:induction false} ByteIsEightBits()
    ensures Power(2, 8) == 256
  {
    assert Power(2, 4) == 16;
    assert Power(2, 6) == 64;
  }

  function XorByte(a: byte, b: byte): byte
  {
    XorBelow(a, b, 8); ByteIsEightBits();
    Xor(a, b, 8)
  }

  lemma {:induction false} XorByteTwice(a: byte, b: byte)
    ensures XorByte(XorByte(a, b), b) == a
  {
    ByteIsEightBits();
    XorTwice(a, b, 8);
  }

  predicate Bit(n: nat, k: nat)
  {
    if k == 0 then n % 2 == 1 else Bit(n / 2, k - 1)
  }

  /** Masking flips exactly the bits that are set in the key. */
  lemma {:induction false} MaskFlipsBits(a: byte, b: byte, k: nat)
    requires k < 8
    ensures Bit(XorByte(a, b), k) <==> Bit(a, k) != Bit(b, k)
  {
    XorBit(a, b, 8, k);
  }

  lemma {:induction false} XorBit(a: nat, b: nat, bits: nat, k: nat)
    requires k < bits
    ensures Bit(Xor(a, b, bits), k) <==> Bit(a, k) != Bit(b, k)
  {
    var x := Xor(a / 2, b / 2, bits - 1);
    Halved(x, if a % 2 == b % 2 then 0 else 1, Xor(a, b, bits));
    if k > 0 {
      XorBit(a / 2, b / 2, bits - 1, k - 1);
    }
  }

  lemma {:induction false} Halved(x: nat, bit: nat, n: nat)
    requires bit < 2 && n == 2 * x + bit
    ensures n / 2 == x && n % 2 == bit
  {
  }

  /** `n` in `k` bytes, most significant first. */
  function BigEndian(n: nat, k: nat): (r: bytes)
    ensures |r| == k
  {
    if k == 0 then [] else BigEndian(n / 256, k - 1) + [n % 256]
  }

  /** The number spelled by the `k` bytes at `pos`, most significant first. */
  function NumberAt(buf: bytes, pos: nat, k: nat): nat
    requires pos + k <= |buf|
  {
    if k == 0 then 0 else 256 * NumberAt(buf, pos, k - 1) + buf[pos + k - 1] as int
  }

  lemma {:induction false} SameNumber(a: bytes, i: nat, b: bytes, j: nat, k: nat)
    requires i + k <= |a| && j + k <= |b|
    requires a[i..i + k] == b[j..j + k]
    ensures NumberAt(a, i, k) == NumberAt(b, j, k)
  {
    if k > 0 {
      LastOfSlice(a, i, k);
      LastOfSlice(b, j, k);
      SameNumber(a, i, b, j, k - 1);
    }
  }

  lemma {:induction false} LastOfSlice<T>(s: seq<T>, i: nat, k: nat)
    requires 0 < k && i + k <= |s|
    ensures s[i..i + k][k - 1] == s[i + k - 1]
    ensures s[i..i + k][..k - 1] == s[i..i + k - 1]
  {
  }

  lemma {:induction false} BigEndianReadsBack(n: nat, k: nat)
    requires n < Power(256, k)
    ensures NumberAt(BigEndian(n, k), 0, k) == n
  {
    if k > 0 {
      BigEndianReadsBack(n / 256, k - 1);
      SameNumber(BigEndian(n / 256, k - 1), 0, BigEndian(n, k), 0, k - 1);
    }
  }

  /** Every byte string is the big-endian form of the number it spells. */
  lemma {:induction false} NumberWritesBack(buf: bytes, pos: nat, k: nat)
    requires pos + k <= |buf|
    ensures NumberAt(buf, pos, k) < Power(256, k)
    ensures BigEndian(NumberAt(buf, pos, k), k) == buf[pos..pos + k]
  {
    if k > 0 {
      NumberWritesBack(buf, pos, k - 1);
      assert buf[pos..pos + k] == buf[pos..pos + k - 1] + [buf[pos + k - 1]];
    }
  }

  lemma {:induction false} EightBytes()
    ensures Power(256, 8) == TWO_TO_THE_64
  {
    assert Power(256, 2) == 0x1_0000;
    assert Power(256, 4) == 0x1_0000_0000;
    assert Power(256, 6) == 0x1_0000_0000_0000;
  }

  // ---- The wire format ----------------------------------------------------

  /** How a frame spells its payload length. */
  datatype Form = Seven | Sixteen | SixtyFour

  predicate Fits(form: Form, n: nat)
  {
    match form
    case Seven => n < 126
    case Sixteen => n < 65536
    case SixtyFour => n < TWO_TO_THE_64
  }

  /** The length bytes after the first byte; `mask` is the mask bit. */
  function LengthBytes(form: Form, n: nat, mask: bool): (r: bytes)
    requires Fits(form, n)
    ensures |r| == HeaderSize(form) - 1
  {
    [LengthCode(form, n) + (if mask then 128 else 0)] + ExtraLength(form, n)
  }

  function LengthCode(form: Form, n: nat): (c: byte)
    requires Fits(form, n)
    ensures c < 128
  {
    match form case Seven => n case Sixteen => 126 case SixtyFour => 127
  }

  function ExtraLength(form: Form, n: nat): (r: bytes)
    requires Fits(form, n)
    ensures |r| == HeaderSize(form) - 2
  {
    match form case Seven => [] case Sixteen => [n / 256, n % 256] case SixtyFour => BigEndian(n, 8)
  }

  function HeaderSize(form: Form): nat
  {
    match form case Seven => 2 case Sixteen => 4 case SixtyFour => 10
  }

  /** An unmasked frame as a server writes it. */
  function ServerFrame(first: byte, form: Form, payload: bytes): (r: bytes)
    requires Fits(form, |payload|)
    ensures |r| == HeaderSize(form) + |payload|
  {
    [first] + LengthBytes(form, |payload|, false) + payload
  }

  function Masked(payload: bytes, key: bytes): (r: bytes)
    requires |key| == 4
    ensures |r| == |payload|
  {
    seq(|payload|, i requires 0 <= i < |payload| => XorByte(payload[i], key[i % 4]))
  }

  /** The shortest form, which is the one the printer picks. */
  function Minimal(n: nat): (f: Form)
    ensures n < TWO_TO_THE_64 ==> Fits(f, n)
  {
    if n < 126 then Seven else if n < 65536 then Sixteen else SixtyFour
  }

  function FirstByte(opcode: byte, fin: bool): byte
  {
    if fin && opcode < 128 then opcode + 128 else opcode
  }

  /** The first byte is the opcode with the top bit set on a final frame. */
  lemma {:induction false} FirstByteMeans(opcode: byte, fin: bool)
    ensures FirstByte(opcode, fin) % 128 == opcode % 128
    ensures FirstByte(opcode, fin) >= 128 <==> fin || opcode >= 128
  {
  }

  /** A masked frame as the client writes it. */
  function ClientFrame(opcode: byte, payload: bytes, fin: bool): bytes
    requires |payload| < TWO_TO_THE_64
  {
    [FirstByte(opcode, fin)] + LengthBytes(Minimal(|payload|), |payload|, true) + KEY + Masked(payload, KEY)
  }

  /** The printer; a length of 2^64 or more does not fit its eight bytes. */
  method WsFrame(opcode: byte, payload: bytes, fin: bool) returns (r: Option<bytes>)
    ensures r.None? <==> |payload| >= TWO_TO_THE_64
    ensures r.Some? ==> r.value == ClientFrame(opcode, payload, fin)
  {
    var n := |payload|;
    if n >= TWO_TO_THE_64 {
      return None;
    }
    var head := PrintHeader(opcode, n, fin);
    var body: bytes := [];
    for i := 0 to n
      invariant body == Masked(payload, KEY)[..i]
    {
      body := body + [XorByte(payload[i], KEY[i % 4])];
    }
    return Some(head + KEY + body);
  }

  /** The bytes before the key. */
  method PrintHeader(opcode: byte, n: nat, fin: bool) returns (out: bytes)
    requires n < TWO_TO_THE_64
    ensures out == [FirstByte(opcode, fin)] + LengthBytes(Minimal(n), n, true)
  {
    out := [FirstByte(opcode, fin)];
    if n < 126 {
      out := out + [128 + n];
    } else if n < 65536 {
      assert n / 256 < 256;
      out := out + [128 + 126, n / 256 % 256, n % 256];
    } else {
      out := out + ([128 + 127] + BigEndian(n, 8));
    }
  }

  /** What a server does with a masked frame: clear the mask bit, take the key
      out, undo the exclusive or. It reads the length form from the wire. */
  function Unmask(wire: bytes): bytes
    requires HasKey(wire)
  {
    var h := HeaderSize(CodedForm(wire[1] % 128));
    [wire[0], wire[1] % 128] + wire[2..h] + Masked(wire[h + 4..], wire[h..h + 4])
  }

  function CodedForm(code: byte): Form
  {
    if code == 126 then Sixteen else if code == 127 then SixtyFour else Seven
  }

  predicate HasKey(wire: bytes)
  {
    |wire| >= 2 && |wire| >= HeaderSize(CodedForm(wire[1] % 128)) + 4
  }

  lemma {:induction false} MaskTwice(payload: bytes, key: bytes)
    requires |key| == 4
    ensures Masked(Masked(payload, key), key) == payload
  {
    forall i | 0 <= i < |payload|
      ensures Masked(Masked(payload, key), key)[i] == payload[i]
    {
      XorByteTwice(payload[i], key[i % 4]);
    }
  }

  lemma {:induction false} PartsOfClientFrame(opcode: byte, payload: bytes, fin: bool)
    requires |payload| < TWO_TO_THE_64
    ensures var w, form, n := ClientFrame(opcode, payload, fin), Minimal(|payload|), |payload|;
            var h := HeaderSize(form);
            && |w| == h + 4 + n
            && w[0] == FirstByte(opcode, fin) && w[1] == LengthCode(form, n) + 128
            && w[2..h] == ExtraLength(form, n)
            && w[h..h + 4] == KEY && w[h + 4..] == Masked(payload, KEY)
  {
    var form, n := Minimal(|payload|), |payload|;
    CutFrame(FirstByte(opcode, fin), LengthCode(form, n) + 128, ExtraLength(form, n), KEY, Masked(payload, KEY));
  }

  lemma {:induction false} CutFrame(a: byte, b: byte, more: bytes, key: bytes, rest: bytes)
    requires |key| == 4
    ensures var w, h := [a] + ([b] + more) + key + rest, 2 + |more|;
            && |w| == h + 4 + |rest| && w[0] == a && w[1] == b
            && w[2..h] == more && w[h..h + 4] == key && w[h + 4..] == rest
  {
  }

  /** A frame masked with any key, once unmasked, is the server frame of the
      same first byte and payload. */
  lemma {:induction false} UnmaskParts(w: bytes, first: byte, form: Form, payload: bytes, key: bytes)
    requires Fits(form, |payload|) && |key| == 4
    requires |w| == HeaderSize(form) + 4 + |payload|
    requires w[0] == first && w[1] == LengthCode(form, |payload|) + 128
    requires w[2..HeaderSize(form)] == ExtraLength(form, |payload|)
    requires w[HeaderSize(form)..HeaderSize(form) + 4] == key
    requires w[HeaderSize(form) + 4..] == Masked(payload, key)
    ensures HasKey(w) && Unmask(w) == ServerFrame(first, form, payload)
  {
    var code, extra := LengthCode(form, |payload|), ExtraLength(form, |payload|);
    MaskTwice(payload, key);
    assert w[1] % 128 == code && CodedForm(code) == form;
    assert Unmask(w) == [first, code] + extra + payload;
    assert ServerFrame(first, form, payload) == [first] + ([code] + extra) + payload;
    Regroup(first, code, extra, payload);
  }

  lemma {:induction false} Regroup(a: byte, b: byte, more: bytes, rest: bytes)
    ensures [a, b] + more + rest == [a] + ([b] + more) + rest
  {
  }

  lemma {:induction false} UnmaskedIsServerFrame(opcode: byte, payload: bytes, fin: bool)
    requires |payload| < TWO_TO_THE_64
    ensures HasKey(ClientFrame(opcode, payload, fin))
    ensures Unmask(ClientFrame(opcode, payload, fin))
            == ServerFrame(FirstByte(opcode, fin), Minimal(|payload|), payload)
  {
    PartsOfClientFrame(opcode, payload, fin);
    UnmaskParts(ClientFrame(opcode, payload, fin), FirstByte(opcode, fin), Minimal(|payload|), payload, KEY);
  }

  // ---- The parser ---------------------------------------------------------

  datatype Message = Message(op: byte, payload: bytes)

  /** What a buffer holds at a position: not yet a whole frame, a frame that
      claims to be masked, or a frame with its payload in `start .. end`. */
  datatype Front = Incomplete | ClaimsMask | Whole(op: byte, start: nat, end: nat)

  function WholeIfThere(buf: bytes, pos: nat, header: nat, n: nat): Front
    requires pos < |buf|
  {
    if pos + header + n > |buf| then Incomplete
    else Whole(buf[pos] % 16, pos + header, pos + header + n)
  }

  function Pair(high: byte, low: byte): nat
  {
    256 * high as int + low as int
  }

  lemma {:induction false} PairWritesBack(high: byte, low: byte)
    ensures Pair(high, low) < 65536 && Pair(high, low) / 256 == high && Pair(high, low) % 256 == low
  {
  }

  function FrontAt(buf: bytes, pos: nat): (f: Front)
    ensures f.Whole? ==> pos + 2 <= f.start <= f.end <= |buf|
  {
    if pos + 2 > |buf| then Incomplete
    else if buf[pos + 1] >= 128 then ClaimsMask
    else if buf[pos + 1] == 126 then
      (if pos + 4 > |buf| then Incomplete else WholeIfThere(buf, pos, 4, Pair(buf[pos + 2], buf[pos + 3])))
    else if buf[pos + 1] == 127 then
      (if pos + 10 > |buf| then Incomplete
       else WholeIfThere(buf, pos, 10, NumberAt(buf, pos + 2, 8)))
    else WholeIfThere(buf, pos, 2, buf[pos + 1])
  }

  /** The bytes `buf[i..j]`, one at a time. */
  function Copy(buf: bytes, i: nat, j: nat): bytes
    requires i <= j <= |buf|
    decreases j
  {
    if i == j then [] else Copy(buf, i, j - 1) + [buf[j - 1]]
  }

  lemma {:induction false} CopyIsSlice(buf: bytes, i: nat, j: nat)
    requires i <= j <= |buf|
    ensures Copy(buf, i, j) == buf[i..j]
    decreases j
  {
    if i < j {
      CopyIsSlice(buf, i, j - 1);
      assert buf[i..j] == buf[i..j - 1] + [buf[j - 1]];
    }
  }

  lemma {:induction false} CopyGrows(a: bytes, b: bytes, i: nat, j: nat)
    requires i <= j <= |a|
    ensures Copy(a + b, i, j) == Copy(a, i, j)
    decreases j
  {
    if i < j {
      CopyGrows(a, b, i, j - 1);
    }
  }

  lemma {:induction false} CopyAfter(x: bytes, y: bytes, i: nat, j: nat)
    requires i <= j <= |y|
    ensures Copy(x + y, |x| + i, |x| + j) == Copy(y, i, j)
    decreases j
  {
    if i < j {
      CopyAfter(x, y, i, j - 1);
    }
  }

  /** The frames taken from a buffer and where the next one would start. */
  datatype Parsed = Parsed(frames: seq<Message>, next: nat)

  /** None when the parser raises: some frame reached claims to be masked. */
  function ParseAt(buf: bytes, pos: nat): (r: Option<Parsed>)
    requires pos <= |buf|
    ensures r.Some? ==> pos <= r.value.next <= |buf|
    decreases |buf| - pos
  {
    match FrontAt(buf, pos)
    case Incomplete => Some(Parsed([], pos))
    case ClaimsMask => None
    case Whole(op, s, e) => Prepend([Message(op, Copy(buf, s, e))], ParseAt(buf, e))
  }

  function Parse(buf: bytes): Option<Parsed>
  {
    ParseAt(buf, 0)
  }

  function Prepend(frames: seq<Message>, p: Option<Parsed>): Option<Parsed>
  {
    if p.None? then None else Some(Parsed(frames + p.value.frames, p.value.next))
  }

  lemma {:induction false} PrependNothing(p: Option<Parsed>)
    ensures Prepend([], p) == p
  {
    if p.Some? {
      assert [] + p.value.frames == p.value.frames;
    }
  }

  lemma {:induction false} PrependTwice(a: seq<Message>, b: seq<Message>, p: Option<Parsed>)
    ensures Prepend(a, Prepend(b, p)) == Prepend(a + b, p)
  {
    if p.Some? {
      assert a + (b + p.value.frames) == (a + b) + p.value.frames;
    }
  }

  lemma {:induction false} TakeFront(buf: bytes, frames: seq<Message>, pos: nat)
    requires FrontAt(buf, pos).Whole?
    ensures var f := FrontAt(buf, pos);
            Prepend(frames, ParseAt(buf, pos))
            == Prepend(frames + [Message(f.op, buf[f.start..f.end])], ParseAt(buf, f.end))
  {
    var f := FrontAt(buf, pos);
    CopyIsSlice(buf, f.start, f.end);
    PrependTwice(frames, [Message(f.op, buf[f.start..f.end])], ParseAt(buf, f.end));
  }

  lemma {:induction false} MaskBit(b: byte)
    ensures b / 128 != 0 <==> b >= 128
    ensures b < 128 ==> b % 128 == b
  {
  }

  /** Read the header at `pos`: what is there? */
  method ReadFront(buf: bytes, pos: nat) returns (f: Front)
    ensures f == FrontAt(buf, pos)
  {
    if pos + 2 > |buf| {
      return Incomplete;
    }
    var b0, b1 := buf[pos], buf[pos + 1];
    MaskBit(b1);
    if b1 / 128 != 0 {
      return ClaimsMask;
    }
    var n: nat, header := b1 % 128, 2;
    if n == 126 {
      if pos + 4 > |buf| {
        return Incomplete;
      }
      n, header := Pair(buf[pos + 2], buf[pos + 3]), 4;
    } else if n == 127 {
      if pos + 10 > |buf| {
        return Incomplete;
      }
      n, header := NumberAt(buf, pos + 2, 8), 10;
    }
    if pos + header + n > |buf| {
      return Incomplete;
    }
    return Whole(b0 % 16, pos + header, pos + header + n);
  }

  method ParseWs(buf: bytes) returns (r: Option<Parsed>)
    ensures r == Parse(buf)
  {
    var frames: seq<Message>, pos := [], 0;
    PrependNothing(Parse(buf));
    while true
      invariant pos <= |buf|
      invariant Parse(buf) == Prepend(frames, ParseAt(buf, pos))
      decreases |buf| - pos
    {
      var f := ReadFront(buf, pos);
      match f
      case Incomplete =>
        assert frames + [] == frames;
        return Some(Parsed(frames, pos));
      case ClaimsMask => return None;
      case Whole(op, start, end) =>
        TakeFront(buf, frames, pos);
        frames, pos := frames + [Message(op, buf[start..end])], end;
    }
  }

  // ---- Parsing where there are bytes before or after ----------------------

  function ShiftFront(f: Front, k: nat): Front
  {
    if f.Whole? then Whole(f.op, f.start + k, f.end + k) else f
  }

  function Shift(p: Option<Parsed>, k: nat): Option<Parsed>
  {
    if p.None? then None else Some(Parsed(p.value.frames, p.value.next + k))
  }

  lemma {:induction false} CutJoined<T>(a: seq<T>, b: seq<T>, k: nat)
    requires k <= |a|
    ensures a[..k] + (From(a, k) + b) == a + b
  {
  }

  lemma {:induction false} FrontAfter(x: bytes, y: bytes, i: nat)
    requires i <= |y|
    ensures FrontAt(x + y, |x| + i) == ShiftFront(FrontAt(y, i), |x|)
  {
    if i + 10 <= |y| {
      SameNumber(x + y, |x| + i + 2, y, i + 2, 8);
    }
  }

  function FrameOf(buf: bytes, f: Front): seq<Message>
    requires f.Whole? && f.start <= f.end <= |buf|
  {
    [Message(f.op, Copy(buf, f.start, f.end))]
  }

  lemma {:induction false} ParseWhole(buf: bytes, pos: nat, f: Front)
    requires f.Whole? && FrontAt(buf, pos) == f
    ensures ParseAt(buf, pos) == Prepend(FrameOf(buf, f), ParseAt(buf, f.end))
  {
  }

  lemma {:induction false} ParseWholeAfter(x: bytes, y: bytes, i: nat)
    requires FrontAt(y, i).Whole?
    ensures var f := FrontAt(y, i);
            ParseAt(x + y, |x| + i) == Prepend(FrameOf(y, f), ParseAt(x + y, |x| + f.end))
  {
    var f := FrontAt(y, i);
    FrontAfter(x, y, i);
    ParseWhole(x + y, |x| + i, ShiftFront(f, |x|));
    CopyAfter(x, y, f.start, f.end);
  }

  /** Bytes already behind the position do not matter. */
  lemma {:induction false} ParseAfter(x: bytes, y: bytes, i: nat)
    requires i <= |y|
    ensures ParseAt(x + y, |x| + i) == Shift(ParseAt(y, i), |x|)
    decreases |y| - i
  {
    var f := FrontAt(y, i);
    if f.Whole? {
      ParseWholeAfter(x, y, i);
      ParseAfter(x, y, f.end);
      ParseWhole(y, i, f);
      ShiftPrepend(FrameOf(y, f), ParseAt(y, f.end), |x|);
    } else {
      FrontAfter(x, y, i);
      ParseStops(y, i, f);
      ParseStops(x + y, |x| + i, f);
    }
  }

  lemma {:induction false} ParseStops(buf: bytes, pos: nat, f: Front)
    requires pos <= |buf| && FrontAt(buf, pos) == f && !f.Whole?
    ensures ParseAt(buf, pos) == if f.Incomplete? then Some(Parsed([], pos)) else None
  {
  }

  lemma {:induction false} ShiftPrepend(frames: seq<Message>, p: Option<Parsed>, k: nat)
    ensures Shift(Prepend(frames, p), k) == Prepend(frames, Shift(p, k))
  {
  }

  lemma {:induction false} FrontGrows(a: bytes, b: bytes, pos: nat)
    requires !FrontAt(a, pos).Incomplete?
    ensures FrontAt(a + b, pos) == FrontAt(a, pos)
  {
    if pos + 10 <= |a| {
      SameNumber(a + b, pos + 2, a, pos + 2, 8);
    }
  }

  lemma {:induction false} ParseGrows(a: bytes, b: bytes, pos: nat)
    requires pos <= |a|
    ensures match ParseAt(a, pos)
            case None => ParseAt(a + b, pos).None?
            case Some(p) => ParseAt(a + b, pos) == Prepend(p.frames, ParseAt(a + b, p.next))
    decreases |a| - pos
  {
    var f := FrontAt(a, pos);
    if f.Incomplete? {
      PrependNothing(ParseAt(a + b, pos));
    } else {
      FrontGrows(a, b, pos);
      if f.Whole? {
        ParseGrows(a, b, f.end);
        ParseWhole(a, pos, f);
        ParseWhole(a + b, pos, f);
        CopyGrows(a, b, f.start, f.end);
        var p := ParseAt(a, f.end);
        if p.Some? {
          PrependTwice(FrameOf(a, f), p.value.frames, ParseAt(a + b, p.value.next));
        }
      }
    }
  }

  /** Segmentation: parsing `a + b` is parsing `a`, then what `a` left followed
      by `b`; and a buffer that makes the parser raise still does when more
      bytes follow. */
  lemma {:induction false} ParseInPieces(a: bytes, b: bytes)
    ensures match Parse(a)
            case None => Parse(a + b).None?
            case Some(p) => Parse(a + b) == Prepend(p.frames, Shift(Parse(From(a, p.next) + b), p.next))
  {
    ParseGrows(a, b, 0);
    if Parse(a).Some? {
      ParseFromCut(a, b, Parse(a).value.next);
    }
  }

  lemma {:induction false} ParseFromCut(a: bytes, b: bytes, k: nat)
    requires k <= |a|
    ensures ParseAt(a + b, k) == Shift(Parse(From(a, k) + b), k)
  {
    CutJoined(a, b, k);
    ParseAfter(a[..k], From(a, k) + b, 0);
  }

  // ---- The parser inverts the wire format ---------------------------------

  lemma {:induction false} FrontOfServerFrame(first: byte, form: Form, payload: bytes, rest: bytes)
    requires Fits(form, |payload|)
    ensures var w := ServerFrame(first, form, payload);
            && FrontAt(w + rest, 0) == Whole(first % 16, HeaderSize(form), |w|)
            && Copy(w + rest, HeaderSize(form), |w|) == payload
  {
    var n := |payload|;
    var w := ServerFrame(first, form, payload);
    CopyIsSlice(w + rest, HeaderSize(form), |w|);
    assert (w + rest)[2..HeaderSize(form)] == w[2..HeaderSize(form)] == ExtraLength(form, n);
    match form
    case Seven =>
    case Sixteen =>
      assert w[2] == ExtraLength(form, n)[0] && w[3] == ExtraLength(form, n)[1];
    case SixtyFour =>
      EightBytes();
      BigEndianReadsBack(n, 8);
      SameNumber(w + rest, 2, BigEndian(n, 8), 0, 8);
  }

  lemma {:induction false} HeaderOfWhole(buf: bytes, pos: nat)
    requires FrontAt(buf, pos).Whole?
    ensures var f := FrontAt(buf, pos);
            var form, n := CodedForm(buf[pos + 1]), f.end - f.start;
            && Fits(form, n) && LengthCode(form, n) == buf[pos + 1]
            && ExtraLength(form, n) == buf[pos + 2..f.start]
  {
    if buf[pos + 1] == 127 {
      NumberWritesBack(buf, pos + 2, 8);
      EightBytes();
    } else if buf[pos + 1] == 126 {
      PairWritesBack(buf[pos + 2], buf[pos + 3]);
      assert buf[pos + 2..pos + 4] == [buf[pos + 2], buf[pos + 3]];
    }
  }

  lemma {:induction false} JoinSlices<T>(s: seq<T>, pos: nat, start: nat, end: nat)
    requires pos + 2 <= start <= end <= |s|
    ensures [s[pos]] + ([s[pos + 1]] + s[pos + 2..start]) + s[start..end] == s[pos..end]
  {
  }

  /** The converse: whatever the parser takes for a frame is one. */
  lemma {:induction false} WholeIsServerFrame(buf: bytes, pos: nat)
    requires FrontAt(buf, pos).Whole?
    ensures var f := FrontAt(buf, pos);
            var form := CodedForm(buf[pos + 1]);
            && Fits(form, f.end - f.start) && f.op == buf[pos] % 16
            && buf[pos..f.end] == ServerFrame(buf[pos], form, buf[f.start..f.end])
  {
    var f := FrontAt(buf, pos);
    HeaderOfWhole(buf, pos);
    JoinSlices(buf, pos, f.start, f.end);
  }

  /** A frame as a server sends it. */
  datatype Sent = Sent(first: byte, form: Form, payload: bytes)

  predicate Writable(sent: seq<Sent>)
  {
    forall i | 0 <= i < |sent| :: Fits(sent[i].form, |sent[i].payload|)
  }

  function Wire(sent: seq<Sent>): bytes
    requires Writable(sent)
  {
    if sent == [] then []
    else ServerFrame(sent[0].first, sent[0].form, sent[0].payload) + Wire(sent[1..])
  }

  function Meaning(sent: seq<Sent>): seq<Message>
  {
    if sent == [] then [] else [Message(sent[0].first % 16, sent[0].payload)] + Meaning(sent[1..])
  }

  lemma {:induction false} ParseOneFrame(first: byte, form: Form, payload: bytes, rest: bytes)
    requires Fits(form, |payload|)
    ensures var w := ServerFrame(first, form, payload);
            Parse(w + rest) == Prepend([Message(first % 16, payload)], Shift(Parse(rest), |w|))
  {
    var w := ServerFrame(first, form, payload);
    FrontOfServerFrame(first, form, payload, rest);
    ParseAfter(w, rest, 0);
  }

  /** Whatever frames a server writes, in whatever length forms, the parser
      reads them back and goes on with what follows them. */
  lemma {:induction false} ParseReadsFramesBack(sent: seq<Sent>, tail: bytes)
    requires Writable(sent)
    ensures Parse(Wire(sent) + tail) == Prepend(Meaning(sent), Shift(Parse(tail), |Wire(sent)|))
  {
    if sent == [] {
      assert Wire(sent) + tail == tail;
      PrependNothing(Parse(tail));
    } else {
      var s, more := sent[0], sent[1..];
      var w, m := ServerFrame(s.first, s.form, s.payload), Message(s.first % 16, s.payload);
      assert Wire(sent) + tail == w + (Wire(more) + tail);
      ParseOneFrame(s.first, s.form, s.payload, Wire(more) + tail);
      ParseReadsFramesBack(more, tail);
      PrependTwice([m], Meaning(more), Shift(Parse(tail), |w| + |Wire(more)|));
    }
  }

  lemma {:induction false} WireCons(one: Sent, more: seq<Sent>)
    requires Fits(one.form, |one.payload|) && Writable(more)
    ensures Writable([one] + more)
    ensures Wire([one] + more) == ServerFrame(one.first, one.form, one.payload) + Wire(more)
    ensures Meaning([one] + more) == [Message(one.first % 16, one.payload)] + Meaning(more)
  {
    assert ([one] + more)[1..] == more;
  }

  lemma {:induction false} JoinTwo<T>(s: seq<T>, i: nat, j: nat, k: nat)
    requires i <= j <= k <= |s|
    ensures s[i..j] + s[j..k] == s[i..k]
  {
  }

  /** Conversely the bytes a parse consumed are frames with just the meaning it
      returned, and it stops only where no whole frame is left. */
  lemma {:induction false} ParseTakesOnlyFrames(buf: bytes, pos: nat) returns (sent: seq<Sent>)
    requires pos <= |buf| && ParseAt(buf, pos).Some?
    ensures Writable(sent)
    ensures Wire(sent) == buf[pos..ParseAt(buf, pos).value.next]
    ensures Meaning(sent) == ParseAt(buf, pos).value.frames
    ensures FrontAt(buf, ParseAt(buf, pos).value.next).Incomplete?
    decreases |buf| - pos
  {
    var f := FrontAt(buf, pos);
    if f.Incomplete? {
      sent := [];
    } else {
      var more := ParseTakesOnlyFrames(buf, f.end);
      WholeIsServerFrame(buf, pos);
      CopyIsSlice(buf, f.start, f.end);
      ParseWhole(buf, pos, f);
      var one := Sent(buf[pos], CodedForm(buf[pos + 1]), buf[f.start..f.end]);
      sent := [one] + more;
      WireCons(one, more);
      JoinTwo(buf, pos, f.end, ParseAt(buf, f.end).value.next);
    }
  }

  lemma {:induction false} OneFrameAlone(first: byte, form: Form, payload: bytes)
    requires Fits(form, |payload|)
    ensures var w := ServerFrame(first, form, payload);
            Parse(w) == Some(Parsed([Message(first % 16, payload)], |w|))
  {
    var w, m := ServerFrame(first, form, payload), [Message(first % 16, payload)];
    ParseOneFrame(first, form, payload, []);
    assert w + [] == w && m + [] == m;
  }

  lemma {:induction false} OpcodeKept(opcode: byte, fin: bool)
    ensures FirstByte(opcode, fin) % 16 == opcode % 16
  {
  }

  /** The round trip through all three length forms: the printer's frame, with
      its mask taken off, is read back whole as the same opcode and payload. */
  lemma {:induction false} FrameReadsBack(opcode: byte, payload: bytes, fin: bool)
    requires |payload| < TWO_TO_THE_64
    ensures HasKey(ClientFrame(opcode, payload, fin))
    ensures var plain := Unmask(ClientFrame(opcode, payload, fin));
            Parse(plain) == Some(Parsed([Message(opcode % 16, payload)], |plain|))
  {
    UnmaskedIsServerFrame(opcode, payload, fin);
    OpcodeKept(opcode, fin);
    OneFrameAlone(FirstByte(opcode, fin), Minimal(|payload|), payload);
  }

  /** With its mask on, the parser refuses it whatever follows. */
  lemma {:induction false} MaskedFrameIsRefused(opcode: byte, payload: bytes, fin: bool, rest: bytes)
    requires |payload| < TWO_TO_THE_64
    ensures Parse(ClientFrame(opcode, payload, fin) + rest).None?
  {
    PartsOfClientFrame(opcode, payload, fin);
    var w := ClientFrame(opcode, payload, fin) + rest;
    assert FrontAt(w, 0).ClaimsMask?;
  }

  // ---- Any chunking -------------------------------------------------------

  /** What a receiver holds: bytes not yet consumed and the messages so far. */
  datatype Receiver = Receiver(buf: bytes, got: seq<Message>)

  /** Parse the buffer, keep the messages and delete what was consumed. */
  function Take(got: seq<Message>, buf: bytes): Option<Receiver>
  {
    Settle(got, buf, Parse(buf))
  }

  function Settle(got: seq<Message>, buf: bytes, p: Option<Parsed>): Option<Receiver>
    requires p.Some? ==> p.value.next <= |buf|
  {
    if p.None? then None else Some(Receiver(From(buf, p.value.next), got + p.value.frames))
  }

  lemma {:induction false} SettleInPieces(got: seq<Message>, a: bytes, b: bytes, p: Parsed, rest: Option<Parsed>)
    requires p.next <= |a| && (rest.Some? ==> p.next + rest.value.next <= |a| + |b|)
    ensures Settle(got, a + b, Prepend(p.frames, Shift(rest, p.next)))
            == Settle(got + p.frames, From(a, p.next) + b, rest)
  {
    if rest.Some? {
      DropJoined(a, b, p.next, rest.value.next);
      Associate(got, p.frames, rest.value.frames);
    }
  }

  /** A receiver that does this after every chunk. */
  function Feed(r: Receiver, chunks: seq<bytes>): Option<Receiver>
    decreases |chunks|
  {
    if chunks == [] then Some(r)
    else
      match Take(r.got, r.buf + chunks[0])
      case None => None
      case Some(next) => Feed(next, chunks[1..])
  }

  lemma {:induction false} DropJoined<T>(a: seq<T>, b: seq<T>, i: nat, j: nat)
    requires i <= |a| && i + j <= |a| + |b|
    ensures From(From(a, i) + b, j) == From(a + b, i + j)
  {
  }

  lemma {:induction false} Associate<T>(a: seq<T>, b: seq<T>, c: seq<T>)
    ensures (a + b) + c == a + (b + c)
  {
  }

  lemma {:induction false} TakeInPieces(got: seq<Message>, a: bytes, b: bytes)
    ensures match Take(got, a)
            case None => Take(got, a + b).None?
            case Some(r) => Take(got, a + b) == Take(r.got, r.buf + b)
  {
    ParseInPieces(a, b);
    if Parse(a).Some? {
      var p := Parse(a).value;
      SettleInPieces(got, a, b, p, Parse(From(a, p.next) + b));
    }
  }

  lemma {:induction false} FrontOfTail(buf: bytes, k: nat)
    requires k <= |buf|
    ensures FrontAt(buf, k) == ShiftFront(FrontAt(From(buf, k), 0), k)
  {
    var x, y := buf[..k], From(buf, k);
    assert x + y == buf;
    FrontAfter(x, y, 0);
  }

  /** Nothing whole is left in a receiver after a parse. */
  lemma {:induction false} NothingWholeLeft(got: seq<Message>, buf: bytes)
    requires Take(got, buf).Some?
    ensures FrontAt(Take(got, buf).value.buf, 0).Incomplete?
  {
    assert FrontAt(buf, Parse(buf).value.next).Incomplete? by {
      var sent := ParseTakesOnlyFrames(buf, 0);
    }
    FrontOfTail(buf, Parse(buf).value.next);
  }

  lemma {:induction false} FeedIsOneParse(r: Receiver, chunks: seq<bytes>)
    requires FrontAt(r.buf, 0).Incomplete?
    ensures Feed(r, chunks) == Take(r.got, r.buf + Flatten(chunks))
    decreases |chunks|
  {
    if chunks == [] {
      assert r.buf + [] == r.buf;
      assert r.got + [] == r.got;
    } else {
      var buf, later := r.buf + chunks[0], Flatten(chunks[1..]);
      assert r.buf + Flatten(chunks) == buf + later;
      TakeInPieces(r.got, buf, later);
      if Take(r.got, buf).Some? {
        NothingWholeLeft(r.got, buf);
        FeedIsOneParse(Take(r.got, buf).value, chunks[1..]);
      }
    }
  }

  /** Only the bytes matter, not how they were cut: however a sequence of
      server frames arrives, exactly its messages come out and nothing is left. */
  lemma {:induction false} FramesSurviveAnyChunking(sent: seq<Sent>, chunks: seq<bytes>)
    requires Writable(sent) && Flatten(chunks) == Wire(sent)
    ensures Feed(Receiver([], []), chunks) == Some(Receiver([], Meaning(sent)))
  {
    FeedIsOneParse(Receiver([], []), chunks);
    assert [] + Flatten(chunks) == Wire(sent) == Wire(sent) + [];
    ParseReadsFramesBack(sent, []);
    assert Meaning(sent) + [] == Meaning(sent);
    assert [] + Meaning(sent) == Meaning(sent);
  }

  // ---- Receiving one frame at a time --------------------------------------

  /** Where a receiver stands after the chunks, or before the one on which the parser
      raised. */
  datatype Stand = Stand(r: Receiver, raised: bool)

  /** The receiver that keeps every frame, up to a raise. */
  function FeedUntil(r: Receiver, chunks: seq<bytes>): Stand
    decreases |chunks|
  {
    if chunks == [] then Stand(r, false)
    else
      match Take(r.got, r.buf + chunks[0])
      case None => Stand(r, true)
      case Some(next) => FeedUntil(next, chunks[1..])
  }

  lemma {:induction false} FeedUntilIsFeed(r: Receiver, chunks: seq<bytes>)
    ensures Feed(r, chunks) == if FeedUntil(r, chunks).raised then None else Some(FeedUntil(r, chunks).r)
    decreases |chunks|
  {
    if chunks != [] {
      var next := Take(r.got, r.buf + chunks[0]);
      if next.Some? {
        FeedUntilIsFeed(next.value, chunks[1..]);
      }
    }
  }

  /** The tunnel's receive call returns the first frame of a parse and deletes
      every byte the parse consumed; this is what the calls return in all, up to a raise. */
  function Recv(r: Receiver, chunks: seq<bytes>): Stand
    decreases |chunks|
  {
    if chunks == [] then Stand(r, false)
    else
      var buf := r.buf + chunks[0];
      match Parse(buf)
      case None => Stand(r, true)
      case Some(p) => Recv(Receiver(From(buf, p.next), r.got + FirstOnly(p.frames)), chunks[1..])
  }

  function FirstOnly(frames: seq<Message>): seq<Message>
  {
    if frames == [] then [] else [frames[0]]
  }

  /** No chunk completes two frames. */
  predicate OneAtATime(buf: bytes, chunks: seq<bytes>)
    decreases |chunks|
  {
    chunks != [] ==>
      var grown := buf + chunks[0];
      Parse(grown).Some? ==>
        && |Parse(grown).value.frames| <= 1
        && OneAtATime(From(grown, Parse(grown).value.next), chunks[1..])
  }

  lemma {:induction false} RecvIsShorter(r: Receiver, all: Receiver, chunks: seq<bytes>)
    requires r.buf == all.buf
    ensures var some, every := Recv(r, chunks), FeedUntil(all, chunks);
            && some.raised == every.raised && some.r.buf == every.r.buf
            && |some.r.got| - |r.got| <= |every.r.got| - |all.got|
            && (|some.r.got| - |r.got| == |every.r.got| - |all.got| <==> OneAtATime(r.buf, chunks))
            && (r.got == all.got && OneAtATime(r.buf, chunks) ==> some == every)
    decreases |chunks|
  {
    if chunks != [] {
      var buf := r.buf + chunks[0];
      if Parse(buf).Some? {
        var p := Parse(buf).value;
        RecvIsShorter(Receiver(From(buf, p.next), r.got + FirstOnly(p.frames)),
                      Receiver(From(buf, p.next), all.got + p.frames), chunks[1..]);
        assert |p.frames| <= 1 ==> FirstOnly(p.frames) == p.frames;
      }
    }
  }

  /** The receive calls hand over every frame exactly when no chunk completes two frames,
      whether or not the parser raises in the end: later frames of the same parse are
      dropped. They raise on the same chunk and are left with the same bytes. */
  lemma {:induction false} RecvKeepsEveryFrameIff(chunks: seq<bytes>)
    ensures var some, every := Recv(Receiver([], []), chunks), FeedUntil(Receiver([], []), chunks);
            && some.raised == every.raised && some.r.buf == every.r.buf
            && (some.r.got == every.r.got <==> OneAtATime([], chunks))
  {
    RecvIsShorter(Receiver([], []), Receiver([], []), chunks);
  }

  lemma {:induction false} TwoEmptyFrames(chunk: bytes)
    requires chunk == [0x81, 0, 0x82, 0]
    ensures Parse(chunk) == Some(Parsed([Message(1, []), Message(2, [])], 4))
  {
    var second: bytes := [0x82, 0];
    ParseOneFrame(0x82, Seven, [], []);
    assert ServerFrame(0x82, Seven, []) + [] == second;
    assert [Message(2, [])] + [] == [Message(2, [])];
    assert Parse(second) == Some(Parsed([Message(2, [])], 2));
    ParseOneFrame(0x81, Seven, [], second);
    assert ServerFrame(0x81, Seven, []) + second == chunk;
    assert [Message(1, [])] + [Message(2, [])] == [Message(1, []), Message(2, [])];
    assert Shift(Parse(second), 2) == Some(Parsed([Message(2, [])], 4));
  }

  /** Two empty frames in one chunk: the second is lost. */
  lemma {:induction false} RecvDropsTheSecond(chunk: bytes)
    requires chunk == [0x81, 0, 0x82, 0]
    ensures Feed(Receiver([], []), [chunk]) == Some(Receiver([], [Message(1, []), Message(2, [])]))
    ensures Recv(Receiver([], []), [chunk]) == Stand(Receiver([], [Message(1, [])]), false)
  {
    TwoEmptyFrames(chunk);
    assert [chunk][1..] == [] && [] + chunk == chunk && chunk[4..] == [];
    assert [] + [Message(1, []), Message(2, [])] == [Message(1, []), Message(2, [])];
    assert [] + [Message(1, [])] == [Message(1, [])];
    assert Take([], chunk) == Some(Receiver([], [Message(1, []), Message(2, [])]));
  }
}
