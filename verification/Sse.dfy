/** Server-sent events with resume: the load client reads an event stream in
    arbitrary pieces, checks the event ids, and reconnects with the last id it
    saw; the server sends a bounded batch per connection. A byte is the
    character with its code. */
module Sse {
  import opened Common

  // ---- Lines from chunks --------------------------------------------------

  const LF := '\n'
  const CR := '\r'

  function StripCr(s: string): string
  {
    if s != "" && s[|s| - 1] == CR then StripCr(s[..|s| - 1]) else s
  }

  /** A line loses its trailing carriage returns, all of them and nothing else. */
  lemma {:induction false} StripTakesTheReturns(s: string) returns (j: nat)
    ensures j <= |s| && StripCr(s) == s[..j]
    ensures (forall k | j <= k < |s| :: s[k] == CR) && (j > 0 ==> s[j - 1] != CR)
  {
    j := |s|;
    if s != "" && s[|s| - 1] == CR {
      j := StripTakesTheReturns(s[..|s| - 1]);
      assert s[..|s| - 1][..j] == s[..j];
    }
  }

  /** How Python reads text, which the Unicode tables of its version decide: what UTF-8
      decoding makes of a line, which characters count as space, and which as digits. */
  datatype Text = Text(decode: string -> string, isSpace: char -> bool, digit: char -> Option<nat>)

  predicate IsAscii(s: string)
  {
    forall c | c in s :: c as int < 128
  }

  /** ASCII is read as such. */
  ghost predicate ReadsAscii(t: Text)
  {
    && (forall s {:trigger t.decode(s)} | IsAscii(s) :: t.decode(s) == s)
    && (forall c: char {:trigger t.isSpace(c)} | c as int < 128 :: t.isSpace(c) == IsSpace(c))
    && (forall c: char {:trigger t.digit(c)} | c as int < 128 :: t.digit(c) == AsciiDigit(c))
  }

  /** A finished line as it is handed on. */
  function Finish(t: Text, line: string): string
  {
    t.decode(StripCr(line))
  }

  /** Finished lines and the unfinished one. */
  datatype Reader = Reader(lines: seq<string>, buf: string)

  /** What reading means, one character at a time: a line feed finishes a line,
      which loses its trailing carriage returns. */
  function Cut(t: Text, r: Reader, s: string): Reader
    decreases |s|
  {
    if s == "" then r
    else if s[0] == LF then Cut(t, Reader(r.lines + [Finish(t, r.buf)], ""), s[1..])
    else Cut(t, Reader(r.lines, r.buf + [s[0]]), s[1..])
  }

  lemma {:induction false} CutConcat(t: Text, r: Reader, a: string, b: string)
    ensures Cut(t, r, a + b) == Cut(t, Cut(t, r, a), b)
    decreases |a|
  {
    if a == "" {
      assert a + b == b;
    } else {
      assert (a + b)[1..] == a[1..] + b;
      if a[0] == LF {
        CutConcat(t, Reader(r.lines + [Finish(t, r.buf)], ""), a[1..], b);
      } else {
        CutConcat(t, Reader(r.lines, r.buf + [a[0]]), a[1..], b);
      }
    }
  }

  lemma {:induction false} CutWithoutLf(t: Text, r: Reader, s: string)
    requires LF !in s
    ensures Cut(t, r, s) == Reader(r.lines, r.buf + s)
    decreases |s|
  {
    if s == "" {
      assert r.buf + s == r.buf;
    } else {
      CutWithoutLf(t, Reader(r.lines, r.buf + [s[0]]), s[1..]);
      assert (r.buf + [s[0]]) + s[1..] == r.buf + s;
    }
  }

  /** One whole line and what follows it. */
  lemma {:induction false} CutLine(t: Text, r: Reader, line: string, rest: string)
    requires LF !in line
    ensures Cut(t, r, line + [LF] + rest) == Cut(t, Reader(r.lines + [Finish(t, r.buf + line)], ""), rest)
  {
    CutConcat(t, r, line, [LF] + rest);
    CutWithoutLf(t, r, line);
    assert line + [LF] + rest == line + ([LF] + rest);
    assert ([LF] + rest)[1..] == rest;
  }

  /** The lines of a byte stream; a last line without line feed is not one. */
  function Lines(t: Text, s: string): seq<string>
  {
    Cut(t, Reader([], ""), s).lines
  }

  method FindLf(s: string) returns (i: nat)
    ensures i <= |s| && LF !in s[..i]
    ensures i < |s| ==> s[i] == LF
  {
    i := 0;
    while i < |s| && s[i] != LF
      invariant i <= |s| && LF !in s[..i]
    {
      i := i + 1;
    }
  }

  /** Take the whole lines off the front of a buffer. */
  method TakeLines(t: Text, had: seq<string>, pending: string) returns (lines: seq<string>, buf: string)
    ensures LF !in buf && Cut(t, Reader(had, ""), pending) == Reader(lines, buf)
  {
    lines, buf := had, pending;
    var i: nat := FindLf(buf);
    while i < |buf|
      invariant i <= |buf| && LF !in buf[..i]
      invariant i < |buf| ==> buf[i] == LF
      invariant Cut(t, Reader(had, ""), pending) == Cut(t, Reader(lines, ""), buf)
      decreases |buf|
    {
      CutFirstLine(t, lines, buf, i);
      lines, buf := lines + [Finish(t, buf[..i])], buf[i + 1..];
      i := FindLf(buf);
    }
    assert buf[..i] == buf && "" + buf == buf;
    CutWithoutLf(t, Reader(lines, ""), buf);
  }

  lemma {:induction false} CutFirstLine(t: Text, lines: seq<string>, buf: string, i: nat)
    requires i < |buf| && LF !in buf[..i] && buf[i] == LF
    ensures Cut(t, Reader(lines, ""), buf) == Cut(t, Reader(lines + [Finish(t, buf[..i])], ""), buf[i + 1..])
  {
    assert buf == buf[..i] + [LF] + buf[i + 1..] && "" + buf[..i] == buf[..i];
    CutLine(t, Reader(lines, ""), buf[..i], buf[i + 1..]);
  }

  /** Reading depends only on the bytes, not on how they were cut. */
  method ReadLines(t: Text, chunks: seq<string>) returns (lines: seq<string>)
    ensures lines == Lines(t, Flatten(chunks))
  {
    lines := [];
    var buf := "";
    for k := 0 to |chunks|
      invariant LF !in buf
      invariant Cut(t, Reader([], ""), Flatten(chunks[..k])) == Reader(lines, buf)
    {
      ghost var before := Reader(lines, buf);
      buf := buf + chunks[k];
      CutChunk(t, chunks, k, before, buf);
      lines, buf := TakeLines(t, lines, buf);
    }
    assert chunks[..|chunks|] == chunks;
  }

  lemma {:induction false} CutChunk(t: Text, chunks: seq<string>, k: nat, r: Reader, buf: string)
    requires k < |chunks| && LF !in r.buf && buf == r.buf + chunks[k]
    requires Cut(t, Reader([], ""), Flatten(chunks[..k])) == r
    ensures Cut(t, Reader([], ""), Flatten(chunks[..k + 1])) == Cut(t, Reader(r.lines, ""), buf)
  {
    assert chunks[..k + 1] == chunks[..k] + [chunks[k]];
    FlattenAppend(chunks[..k], chunks[k]);
    CutConcat(t, Reader([], ""), Flatten(chunks[..k]), chunks[k]);
    CutConcat(t, Reader(r.lines, ""), r.buf, chunks[k]);
    CutWithoutLf(t, Reader(r.lines, ""), r.buf);
    assert "" + r.buf == r.buf;
  }

  // ---- Decimal numbers ----------------------------------------------------

  function Digit(d: nat): char
    requires d < 10
  {
    ('0' as int + d) as char
  }

  predicate IsDigit(c: char)
  {
    '0' <= c <= '9'
  }

  function AsciiDigit(c: char): Option<nat>
  {
    if IsDigit(c) then Some(c as int - '0' as int) else None
  }

  function Decimal(n: nat): (s: string)
    ensures s != "" && forall c | c in s :: IsDigit(c)
  {
    if n < 10 then [Digit(n)] else Decimal(n / 10) + [Digit(n % 10)]
  }

  function Show(i: int): string
  {
    if i < 0 then "-" + Decimal(-i) else Decimal(i)
  }

  /** Digits by the table `digit`; with `under`, single underscores between them are
      skipped. */
  function ReadNat(s: string, digit: char -> Option<nat>, under: bool): Option<nat>
    decreases |s|
  {
    if s == "" then None
    else
      match digit(s[|s| - 1])
      case None => None
      case Some(d) =>
        if |s| == 1 then Some(d)
        else
          match ReadNat(s[..if under && s[|s| - 2] == '_' then |s| - 2 else |s| - 1], digit, under)
          case None => None
          case Some(v) => Some(10 * v + d)
  }

  function Negated(v: Option<nat>): Option<int>
  {
    if v.None? then None else var n: int := v.value; Some(-n)
  }

  function ReadInt(s: string, digit: char -> Option<nat>, under: bool): Option<int>
  {
    if s != "" && s[0] == '-' then
      Negated(ReadNat(s[1..], digit, under))
    else
      match ReadNat(if s != "" && s[0] == '+' then s[1..] else s, digit, under)
      case None => None
      case Some(v) => Some(v)
  }

  lemma {:induction false} ReadNatOfDecimal(n: nat, digit: char -> Option<nat>, under: bool)
    requires forall c | IsDigit(c) :: digit(c) == AsciiDigit(c)
    ensures ReadNat(Decimal(n), digit, under) == Some(n)
  {
    var s := Decimal(n);
    assert IsDigit(s[|s| - 1]);
    if n >= 10 {
      ReadNatOfDecimal(n / 10, digit, under);
      assert s[..|s| - 1] == Decimal(n / 10);
      assert s[|s| - 2] in s;
    }
  }

  lemma {:induction false} ReadIntOfDecimal(n: nat, digit: char -> Option<nat>, under: bool)
    requires forall c | IsDigit(c) :: digit(c) == AsciiDigit(c)
    ensures ReadInt(Decimal(n), digit, under) == Some(n)
  {
    ReadNatOfDecimal(n, digit, under);
    assert Decimal(n)[0] in Decimal(n);
  }

  /** A numeral: digits, with single underscores between them where those are allowed. */
  ghost predicate Numeral(s: string, digit: char -> Option<nat>, under: bool)
  {
    && s != "" && digit(s[0]).Some? && digit(s[|s| - 1]).Some?
    && forall i | 0 <= i < |s| :: NumeralAt(s, digit, under, i)
  }

  predicate NumeralAt(s: string, digit: char -> Option<nat>, under: bool, i: nat)
    requires i < |s|
  {
    digit(s[i]).Some? || (under && s[i] == '_' && i > 0 && s[i - 1] != '_')
  }

  /** What its digits are worth. */
  function Value(s: string, digit: char -> Option<nat>): nat
  {
    if s == "" then 0
    else
      match digit(s[|s| - 1])
      case None => Value(s[..|s| - 1], digit)
      case Some(d) => 10 * Value(s[..|s| - 1], digit) + d
  }

  /** Exactly the numerals are read, each as what its digits are worth. */
  lemma {:induction false} ReadsExactlyNumerals(s: string, digit: char -> Option<nat>, under: bool)
    requires digit('_').None?
    ensures ReadNat(s, digit, under).Some? <==> Numeral(s, digit, under)
    ensures Numeral(s, digit, under) ==> ReadNat(s, digit, under) == Some(Value(s, digit))
    decreases |s|
  {
    if |s| > 1 && digit(s[|s| - 1]).Some? {
      var skip := under && s[|s| - 2] == '_';
      var front := s[..if skip then |s| - 2 else |s| - 1];
      ReadsExactlyNumerals(front, digit, under);
      NumeralFront(s, digit, under, front);
      if skip {
        assert s[..|s| - 1][..|s| - 2] == front;
      }
    }
  }

  lemma {:induction false} NumeralFront(s: string, digit: char -> Option<nat>, under: bool, front: string)
    requires |s| > 1 && digit('_').None? && digit(s[|s| - 1]).Some?
    requires front == s[..if under && s[|s| - 2] == '_' then |s| - 2 else |s| - 1]
    ensures Numeral(s, digit, under) <==> Numeral(front, digit, under)
  {
    assert forall i | 0 <= i < |front| :: NumeralAt(s, digit, under, i) == NumeralAt(front, digit, under, i);
    if Numeral(s, digit, under) {
      assert NumeralAt(s, digit, under, |s| - 2) && NumeralAt(s, digit, under, 0);
      if |front| > 0 {
        assert NumeralAt(s, digit, under, |front| - 1);
      }
    }
    if Numeral(front, digit, under) {
      forall i | 0 <= i < |s|
        ensures NumeralAt(s, digit, under, i)
      {
        if i < |front| {
          assert NumeralAt(front, digit, under, i);
        }
      }
    }
  }

  /** A sign before a numeral. */
  lemma {:induction false} SignedNumerals(s: string, digit: char -> Option<nat>, under: bool)
    requires digit('_').None? && digit('+').None? && digit('-').None? && Numeral(s, digit, under)
    ensures ReadInt(s, digit, under) == ReadInt("+" + s, digit, under) == Some(Value(s, digit))
    ensures ReadInt("-" + s, digit, under) == Some(-(Value(s, digit) as int))
  {
    ReadsExactlyNumerals(s, digit, under);
    assert ("+" + s)[1..] == s && ("-" + s)[1..] == s;
  }

  /** Every integer is read back from its text. */
  lemma {:induction false} ShowReadsBack(i: int, digit: char -> Option<nat>, under: bool)
    requires forall c | IsDigit(c) :: digit(c) == AsciiDigit(c)
    ensures ReadInt(Show(i), digit, under) == Some(i)
  {
    var read := (s: string) => ReadInt(s, digit, under);
    var n: nat := if i < 0 then -i else i;
    ReadIntOfDecimal(n, digit, under);
    ReadNegative(n, digit, under);
    ReadsEither(i, n, read);
  }

  lemma {:induction false} ReadsEither(i: int, n: nat, read: string -> Option<int>)
    requires n == (if i < 0 then -i else i)
    requires read(Decimal(n)) == Some(n) && read("-" + Decimal(n)) == Some(-(n as int))
    ensures read(Show(i)) == Some(i)
  {
  }

  lemma {:induction false} ReadNegative(n: nat, digit: char -> Option<nat>, under: bool)
    requires forall c | IsDigit(c) :: digit(c) == AsciiDigit(c)
    ensures ReadInt("-" + Decimal(n), digit, under) == Some(-(n as int))
  {
    ReadNatOfDecimal(n, digit, under);
    ReadMinus(Decimal(n), digit, under, n);
  }

  lemma {:induction false} ReadMinus(s: string, digit: char -> Option<nat>, under: bool, n: nat)
    requires ReadNat(s, digit, under) == Some(n)
    ensures ReadInt("-" + s, digit, under) == Some(-(n as int))
  {
    assert ("-" + s)[1..] == s;
  }

  /** The ASCII characters Python strips. */
  predicate IsSpace(c: char)
  {
    c == ' ' || '\t' <= c <= '\r' || 0x1c <= c as int <= 0x1f
  }

  function TrimLeft(s: string, isSpace: char -> bool): string
  {
    if s != "" && isSpace(s[0]) then TrimLeft(s[1..], isSpace) else s
  }

  function TrimRight(s: string, isSpace: char -> bool): string
  {
    if s != "" && isSpace(s[|s| - 1]) then TrimRight(s[..|s| - 1], isSpace) else s
  }

  /** Trimming takes white space off both ends, all of it and nothing else. */
  lemma {:induction false} TrimTakesTheSpace(s: string, isSpace: char -> bool) returns (i: nat, j: nat)
    ensures i <= j <= |s| && TrimRight(TrimLeft(s, isSpace), isSpace) == s[i..j]
    ensures forall k | 0 <= k < |s| && !(i <= k < j) :: isSpace(s[k])
    ensures i < j ==> !isSpace(s[i]) && !isSpace(s[j - 1])
  {
    i := LeftTrimmed(s, isSpace);
    j := RightTrimmed(s[i..], isSpace);
    j := j + i;
    assert s[i..][..j - i] == s[i..j];
    forall k | 0 <= k < |s| && !(i <= k < j)
      ensures isSpace(s[k])
    {
      if k >= j {
        assert s[k] == s[i..][k - i];
      }
    }
  }

  lemma {:induction false} LeftTrimmed(s: string, isSpace: char -> bool) returns (i: nat)
    ensures i <= |s| && TrimLeft(s, isSpace) == s[i..]
    ensures (forall k | 0 <= k < i :: isSpace(s[k])) && (i < |s| ==> !isSpace(s[i]))
  {
    i := 0;
    if s != "" && isSpace(s[0]) {
      i := LeftTrimmed(s[1..], isSpace);
      i := i + 1;
    }
  }

  lemma {:induction false} RightTrimmed(s: string, isSpace: char -> bool) returns (j: nat)
    ensures j <= |s| && TrimRight(s, isSpace) == s[..j]
    ensures (forall k | j <= k < |s| :: isSpace(s[k])) && (j > 0 ==> !isSpace(s[j - 1]))
  {
    j := |s|;
    if s != "" && isSpace(s[|s| - 1]) {
      j := RightTrimmed(s[..|s| - 1], isSpace);
      assert s[..|s| - 1][..j] == s[..j];
    }
  }

  /** How the client reads an id. */
  function ReadId(t: Text, s: string): Option<int>
  {
    ReadInt(TrimRight(TrimLeft(s, t.isSpace), t.isSpace), t.digit, true)
  }

  lemma {:induction false} ReadIdOfDecimal(t: Text, n: nat)
    requires ReadsAscii(t)
    ensures ReadId(t, " " + Decimal(n)) == Some(n)
  {
    var d := Decimal(n);
    assert IsDigit(d[0]) && IsDigit(d[|d| - 1]);
    assert (" " + d)[1..] == d;
    assert t.isSpace(' ') && !t.isSpace(d[0]) && !t.isSpace(d[|d| - 1]);
    assert TrimLeft(" " + d, t.isSpace) == TrimLeft(d, t.isSpace) == d;
    ReadIntOfDecimal(n, t.digit, true);
  }

  // ---- The server ---------------------------------------------------------

  const MAX_INT := 0x7FFF_FFFF_FFFF_FFFF
  const MIN_INT := -0x8000_0000_0000_0000

  /** The handler's number reader fails outside the 64-bit range. */
  function Atoi(s: string): Option<int>
  {
    match ReadInt(s, AsciiDigit, false)
    case None => None
    case Some(v) => if MIN_INT <= v <= MAX_INT then Some(v) else None
  }

  function Event(i: int): string
  {
    "id: " + Show(i) + "\ndata: event " + Show(i) + "\n\n"
  }

  /** The texts of `n` numbers from i on. */
  function Series(text: int -> string, i: int, n: nat): string
    decreases n
  {
    if n == 0 then "" else text(i) + Series(text, i + 1, n - 1)
  }

  lemma {:induction false} SeriesAppend(text: int -> string, i: int, n: nat)
    ensures Series(text, i, n + 1) == Series(text, i, n) + text(i + n)
    decreases n
  {
    if n == 0 {
      assert Series(text, i, 1) == text(i) + Series(text, i + 1, 0);
      assert text(i) + "" == "" + text(i);
    } else {
      SeriesAppend(text, i + 1, n - 1);
      Associate(text(i), Series(text, i + 1, n - 1), text(i + n));
    }
  }

  lemma {:induction false} Associate<T>(a: seq<T>, b: seq<T>, c: seq<T>)
    ensures (a + b) + c == a + (b + c)
  {
  }

  function Events(i: int, n: nat): string
  {
    Series(Event, i, n)
  }

  /** The first id to send: one past a readable Last-Event-ID, in 64 bits. */
  function FirstId(header: string): int
  {
    match (if header == "" then None else Atoi(header))
    case None => 0
    case Some(v) => if v == MAX_INT then MIN_INT else v + 1
  }

  function EventsLeft(first: int, total: nat, batch: nat): nat
  {
    if first >= total then 0 else if total - first < batch then total - first else batch
  }

  /** The handler goes on after the id it is told: one past it within 64 bits, wrapping
      past the last one, and from the start for a number that does not fit. */
  lemma {:induction false} ResumesAfterTheLastId(i: int)
    ensures FirstId(Show(i)) == if MIN_INT <= i < MAX_INT then i + 1 else if i == MAX_INT then MIN_INT else 0
  {
    ShowReadsBack(i, AsciiDigit, false);
    assert Show(i) != "";
  }

  method StartId(header: string) returns (i: int)
    ensures i == FirstId(header)
  {
    i := 0;
    if header != "" {
      var v := Atoi(header);
      if v.Some? {
        i := if v.value == MAX_INT then MIN_INT else v.value + 1;
      }
    }
  }

  /** Write the texts of the ids from `first` on. */
  method SendFrom(text: int -> string, first: int, total: nat, batch: nat) returns (body: string)
    ensures body == Series(text, first, EventsLeft(first, total, batch))
  {
    var i, sent := first, 0;
    body := "";
    while i < total && sent < batch
      invariant sent <= batch && i == first + sent
      invariant sent > 0 ==> i <= total
      invariant body == Series(text, first, sent)
    {
      SeriesAppend(text, first, sent);
      body := body + text(i);
      i, sent := i + 1, sent + 1;
    }
  }

  /** The handler sends the ids from one past the header up to the total, at
      most a batch of them. */
  method Serve(header: string, total: nat, batch: nat) returns (body: string)
    ensures body == Response(header, total, batch)
  {
    var i := StartId(header);
    body := SendFrom(Event, i, total, batch);
  }

  function Response(header: string, total: nat, batch: nat): string
  {
    Events(FirstId(header), EventsLeft(FirstId(header), total, batch))
  }

  // ---- The client ---------------------------------------------------------

  /** The client's variables on one connection; `got` and `last` outlive it. */
  datatype Client = Client(got: nat, last: Option<nat>, cur: Option<int>, progressed: bool, inBatch: nat)

  /** None when the client raises: an unreadable id or one out of order. */
  function OnLine(t: Text, c: Client, line: string): Option<Client>
  {
    if "id:" <= line then
      (match ReadId(t, line[3..])
       case None => None
       case Some(v) => Some(c.(cur := Some(v))))
    else if "data:" <= line && c.cur.Some? then
      (if c.cur.value != c.got then None
       else Some(Client(c.got + 1, Some(c.got), None, true, c.inBatch + 1)))
    else Some(c)
  }

  function OnLines(t: Text, c: Client, lines: seq<string>): Option<Client>
    decreases |lines|
  {
    if lines == [] then Some(c)
    else
      match OnLine(t, c, lines[0])
      case None => None
      case Some(next) => OnLines(t, next, lines[1..])
  }

  /** A response as it arrives: a status and the body in pieces. */
  datatype Reply = Reply(status: int, chunks: seq<string>)

  function LinesOf(t: Text, reply: Reply): seq<string>
  {
    Lines(t, Flatten(reply.chunks))
  }

  /** One connection: all its lines, then the two checks on what it brought. */
  function Connection(t: Text, total: nat, batch: nat, got: nat, last: Option<nat>, reply: Reply): Option<Client>
  {
    if reply.status != 200 then None
    else
      match OnLines(t, Client(got, last, None, false, 0), LinesOf(t, reply))
      case None => None
      case Some(c) =>
        if !c.progressed || (c.got < total && c.inBatch != batch) then None else Some(c)
  }

  /** How a sequence ends: done after `used` connections, raised on one, or
      still wanting a reply to a request with this last id. */
  datatype Outcome = Done(used: nat, got: nat) | Raised(on: nat) | Wants(used: nat, last: Option<nat>)

  /** The same outcome with `n` connections before it. */
  function Later(o: Outcome, n: nat): Outcome
  {
    match o
    case Done(u, g) => Done(u + n, g)
    case Raised(k) => Raised(k + n)
    case Wants(u, l) => Wants(u + n, l)
  }

  /** What one connection makes of what was counted, the last id and the reply. */
  type Link = (nat, Option<nat>, Reply) -> Option<Client>

  function Linked(t: Text, total: nat, batch: nat): Link
  {
    (got: nat, last: Option<nat>, reply: Reply) => Connection(t, total, batch, got, last, reply)
  }

  function Follow(link: Link, total: nat, got: nat, last: Option<nat>, replies: seq<Reply>): Outcome
    decreases |replies|
  {
    if got >= total then Done(0, got)
    else if replies == [] then Wants(0, last)
    else
      match link(got, last, replies[0])
      case None => Raised(0)
      case Some(c) => Later(Follow(link, total, c.got, c.last, replies[1..]), 1)
  }

  /** `link` is this client's connection. */
  ghost predicate IsLink(link: Link, t: Text, total: nat, batch: nat)
  {
    forall got: nat, last: Option<nat>, reply: Reply {:trigger LinkAt(link, t, total, batch, got, last, reply)} ::
      LinkAt(link, t, total, batch, got, last, reply)
  }

  predicate LinkAt(link: Link, t: Text, total: nat, batch: nat, got: nat, last: Option<nat>, reply: Reply)
  {
    link(got, last, reply) == Connection(t, total, batch, got, last, reply)
  }

  lemma {:induction false} LinkedIsLink(t: Text, total: nat, batch: nat)
    ensures IsLink(Linked(t, total, batch), t, total, batch)
  {
    forall got: nat, last: Option<nat>, reply: Reply
      ensures LinkAt(Linked(t, total, batch), t, total, batch, got, last, reply)
    {
    }
  }

  /** One connection of the client. */
  method Connect(t: Text, total: nat, batch: nat, got: nat, last: Option<nat>, reply: Reply, ghost link: Link)
    returns (r: Option<Client>)
    requires IsLink(link, t, total, batch)
    ensures r == link(got, last, reply)
  {
    assert LinkAt(link, t, total, batch, got, last, reply);
    if reply.status != 200 {
      return None;
    }
    var lines := ReadLines(t, reply.chunks);
    var c := ReadEvents(t, Client(got, last, None, false, 0), lines);
    if c.None? {
      return None;
    }
    if !c.value.progressed {
      return None;
    }
    if c.value.got < total && c.value.inBatch != batch {
      return None;
    }
    return c;
  }

  /** The client's loop over connections. */
  method RunLinks(t: Text, total: nat, batch: nat, replies: seq<Reply>, ghost link: Link) returns (o: Outcome)
    requires IsLink(link, t, total, batch)
    ensures o == Follow(link, total, 0, None, replies)
  {
    var got: nat, last: Option<nat>, k := 0, None, 0;
    while got < total
      invariant k <= |replies|
      invariant Follow(link, total, 0, None, replies) == Later(Follow(link, total, got, last, From(replies, k)), k)
      decreases |replies| - k
    {
      if k == |replies| {
        return Wants(k, last);
      }
      PopFront(replies, From(replies, k), k);
      var c := Connect(t, total, batch, got, last, replies[k], link);
      if c.None? {
        return Raised(k);
      }
      got, last, k := c.value.got, c.value.last, k + 1;
    }
    return Done(k, got);
  }

  /** A whole sequence of the client. */
  method RunSequence(t: Text, total: nat, batch: nat, replies: seq<Reply>) returns (o: Outcome)
    ensures o == Follow(Linked(t, total, batch), total, 0, None, replies)
  {
    LinkedIsLink(t, total, batch);
    o := RunLinks(t, total, batch, replies, Linked(t, total, batch));
  }

  method ReadEvents(t: Text, start: Client, lines: seq<string>) returns (r: Option<Client>)
    ensures r == OnLines(t, start, lines)
  {
    var c := start;
    for i := 0 to |lines|
      invariant OnLines(t, start, lines) == OnLines(t, c, From(lines, i))
    {
      PopFront(lines, From(lines, i), i);
      if "id:" <= lines[i] {
        var v := ReadId(t, lines[i][3..]);
        if v.None? {
          return None;
        }
        c := c.(cur := Some(v.value));
      } else if "data:" <= lines[i] && c.cur.Some? {
        if c.cur.value != c.got {
          return None;
        }
        c := Client(c.got + 1, Some(c.got), None, true, c.inBatch + 1);
      }
    }
    return Some(c);
  }

  // ---- What the client accepts --------------------------------------------

  /** The ids of the events in a list of lines: a data line is an event when an
      id line came since the last one. None when some id is unreadable. */
  function Ids(t: Text, cur: Option<int>, lines: seq<string>): Option<seq<int>>
    decreases |lines|
  {
    if lines == [] then Some([])
    else if "id:" <= lines[0] then
      (match ReadId(t, lines[0][3..])
       case None => None
       case Some(v) => Ids(t, Some(v), lines[1..]))
    else if "data:" <= lines[0] && cur.Some? then
      (match Ids(t, None, lines[1..])
       case None => None
       case Some(ids) => Some([cur.value] + ids))
    else Ids(t, cur, lines[1..])
  }

  function Count(lo: int, n: nat): (s: seq<int>)
    ensures |s| == n && forall i | 0 <= i < n :: s[i] == lo + i
  {
    seq(n, i => lo + i)
  }

  lemma {:induction false} CountCons(lo: int, n: nat)
    ensures Count(lo, n + 1) == [lo] + Count(lo + 1, n)
  {
  }

  lemma {:induction false} CountJoin(lo: int, m: nat, n: nat)
    ensures Count(lo, m + n) == Count(lo, m) + Count(lo + m, n)
  {
  }

  /** What reading all the lines amounts to: it succeeds exactly when the ids
      count up from `got`, and then every event is counted. */
  lemma {:induction false} OnLinesMeans(t: Text, c: Client, lines: seq<string>)
    ensures match Ids(t, c.cur, lines)
            case None => OnLines(t, c, lines).None?
            case Some(ids) =>
              && (OnLines(t, c, lines).Some? <==> ids == Count(c.got, |ids|))
              && (OnLines(t, c, lines).Some? ==>
                    var d := OnLines(t, c, lines).value;
                    && d.got == c.got + |ids| && d.inBatch == c.inBatch + |ids|
                    && d.progressed == (c.progressed || |ids| > 0)
                    && d.last == (if |ids| == 0 then c.last else Some(d.got - 1)))
    decreases |lines|
  {
    if lines != [] {
      var line, rest := lines[0], lines[1..];
      if "id:" <= line {
        if ReadId(t, line[3..]).Some? {
          OnLinesMeans(t, c.(cur := Some(ReadId(t, line[3..]).value)), rest);
        }
      } else if "data:" <= line && c.cur.Some? {
        if Ids(t, None, rest).Some? {
          EventMeans(c.cur.value, c.got, Ids(t, None, rest).value);
        }
        if c.cur.value == c.got {
          OnLinesMeans(t, Client(c.got + 1, Some(c.got), None, true, c.inBatch + 1), rest);
        }
      } else {
        OnLinesMeans(t, c, rest);
      }
    }
  }

  lemma {:induction false} EventMeans(id: int, got: int, ids: seq<int>)
    ensures [id] + ids == Count(got, |ids| + 1) <==> id == got && ids == Count(got + 1, |ids|)
  {
    CountCons(got, |ids|);
    assert ([id] + ids)[0] == id && ([id] + ids)[1..] == ids;
    assert ([got] + Count(got + 1, |ids|))[1..] == Count(got + 1, |ids|);
  }

  function IdsOf(t: Text, reply: Reply): Option<seq<int>>
  {
    Ids(t, None, LinesOf(t, reply))
  }

  /** The ids brought by each connection of a run that delivers at least
      `total` events from `got` on: together they count up, every connection
      brings some, every one but the last exactly a batch that does not finish. */
  predicate Conforms(total: nat, batch: nat, got: nat, ids: seq<seq<int>>)
  {
    && Flatten(ids) == Count(got, |Flatten(ids)|)
    && FullBatches(batch, ids)
    && Finishes(total, batch, got, ids)
  }

  predicate Finishes(total: nat, batch: nat, got: nat, ids: seq<seq<int>>)
  {
    if ids == [] then got >= total
    else got + (|ids| - 1) * batch < total <= got + |Flatten(ids)|
  }

  lemma {:induction false} CountSplits(got: int, a: seq<int>, b: seq<int>)
    ensures a + b == Count(got, |a + b|) <==> a == Count(got, |a|) && b == Count(got + |a|, |b|)
  {
    CountJoin(got, |a|, |b|);
    if a + b == Count(got, |a + b|) {
      assert a == (a + b)[..|a|] && b == (a + b)[|a|..];
    }
  }

  /** What the first connection of such a run must bring. */
  predicate Step(total: nat, batch: nat, got: nat, ids: seq<int>)
  {
    got < total && ids == Count(got, |ids|) && |ids| > 0 && (got + |ids| < total ==> |ids| == batch)
  }

  predicate FullBatches(batch: nat, ids: seq<seq<int>>)
  {
    && (forall k | 0 <= k < |ids| :: |ids[k]| > 0)
    && (forall k | 0 <= k < |ids| - 1 :: |ids[k]| == batch)
  }

  lemma {:induction false} FullBatchesCons(batch: nat, ids: seq<seq<int>>)
    requires ids != []
    ensures FullBatches(batch, ids)
            <==> |ids[0]| > 0 && (|ids| > 1 ==> |ids[0]| == batch) && FullBatches(batch, ids[1..])
  {
    var rest := ids[1..];
    if FullBatches(batch, ids) {
      forall k | 0 <= k < |rest| ensures |rest[k]| > 0 && (k < |rest| - 1 ==> |rest[k]| == batch) {
        assert rest[k] == ids[k + 1];
      }
    }
    if |ids[0]| > 0 && (|ids| > 1 ==> |ids[0]| == batch) && FullBatches(batch, rest) {
      forall k | 0 <= k < |ids| ensures |ids[k]| > 0 && (k < |ids| - 1 ==> |ids[k]| == batch) {
        if k > 0 {
          assert ids[k] == rest[k - 1];
        }
      }
    }
  }

  lemma {:induction false} OneMoreBatch(batch: nat, n: nat)
    ensures (n + 1) * batch == batch + n * batch
  {
  }

  lemma {:induction false} ConformsCons(total: nat, batch: nat, got: nat, ids: seq<seq<int>>)
    requires ids != []
    ensures Conforms(total, batch, got, ids)
            <==> Step(total, batch, got, ids[0]) && Conforms(total, batch, got + |ids[0]|, ids[1..])
  {
    var rest := ids[1..];
    CountSplits(got, ids[0], Flatten(rest));
    FullBatchesCons(batch, ids);
    if rest != [] {
      OneMoreBatch(batch, |rest| - 1);
    }
  }

  predicate Readable(t: Text, reply: Reply)
  {
    reply.status == 200 && IdsOf(t, reply).Some?
  }

  predicate AllReadable(t: Text, replies: seq<Reply>)
  {
    forall k | 0 <= k < |replies| :: Readable(t, replies[k])
  }

  function AllIds(t: Text, replies: seq<Reply>): seq<seq<int>>
    requires AllReadable(t, replies)
  {
    if replies == [] then [] else [IdsOf(t, replies[0]).value] + AllIds(t, replies[1..])
  }

  lemma {:induction false} ConnectionIsStep(t: Text, total: nat, batch: nat, got: nat, last: Option<nat>, reply: Reply)
    requires got < total
    ensures var c := Connection(t, total, batch, got, last, reply);
            && (c.Some? <==> Readable(t, reply) && Step(total, batch, got, IdsOf(t, reply).value))
            && (c.Some? ==> c.value.got == got + |IdsOf(t, reply).value| && c.value.last == Some(c.value.got - 1))
  {
    OnLinesMeans(t, Client(got, last, None, false, 0), LinesOf(t, reply));
  }

  /** The client follows a transcript to its end without raising exactly when
      every reply is readable and the ids conform; it stops having counted
      every event. */
  lemma {:induction false} AcceptsExactlyConforming(t: Text, total: nat, batch: nat, got: nat, last: Option<nat>,
                                                    replies: seq<Reply>)
    ensures Follows(Follow(Linked(t, total, batch), total, got, last, replies), |replies|)
            <==> AllReadable(t, replies) && Conforms(total, batch, got, AllIds(t, replies))
    ensures Follows(Follow(Linked(t, total, batch), total, got, last, replies), |replies|) ==>
              Follow(Linked(t, total, batch), total, got, last, replies).got == got + |Flatten(AllIds(t, replies))|
    decreases |replies|
  {
    if replies != [] {
      assert AllReadable(t, replies) <==> Readable(t, replies[0]) && AllReadable(t, replies[1..]);
      if got < total {
        ConnectionIsStep(t, total, batch, got, last, replies[0]);
        var c := Connection(t, total, batch, got, last, replies[0]);
        if c.Some? {
          AcceptsExactlyConforming(t, total, batch, c.value.got, c.value.last, replies[1..]);
        }
      }
      if AllReadable(t, replies) {
        ConformsCons(total, batch, got, AllIds(t, replies));
        assert AllIds(t, replies)[1..] == AllIds(t, replies[1..]);
      }
    }
  }

  predicate Follows(o: Outcome, n: nat)
  {
    o.Done? && o.used == n
  }

  // ---- The client against the server --------------------------------------

  function IdLine(i: nat): string
  {
    "id: " + Decimal(i)
  }

  function DataLine(i: nat): string
  {
    "data: event " + Decimal(i)
  }

  function EventLines(i: nat, n: nat): seq<string>
    decreases n
  {
    if n == 0 then [] else [IdLine(i), DataLine(i), ""] + EventLines(i + 1, n - 1)
  }

  /** ASCII text and a number make a line that is read as it was written. */
  lemma {:induction false} WholeLine(t: Text, prefix: string, i: nat)
    requires ReadsAscii(t) && IsAscii(prefix) && LF !in prefix
    ensures LF !in prefix + Decimal(i) && Finish(t, prefix + Decimal(i)) == prefix + Decimal(i)
  {
    var d := Decimal(i);
    assert IsDigit(d[|d| - 1]);
    assert (prefix + d)[|prefix + d| - 1] == d[|d| - 1];
    assert StripCr(prefix + d) == prefix + d;
    assert forall c | c in d :: IsDigit(c);
    assert IsAscii(prefix + d);
  }

  lemma {:induction false} EventIsThreeLines(i: nat, rest: string)
    ensures Event(i) + rest == IdLine(i) + [LF] + (DataLine(i) + [LF] + ("" + [LF] + rest))
  {
    var d := Decimal(i);
    assert "\ndata: event " == [LF] + "data: event ";
    assert "\n\n" == [LF] + ([LF] + "");
  }

  lemma {:induction false} CutThree(t: Text, done: seq<string>, a: string, b: string, rest: string)
    requires LF !in a && LF !in b && Finish(t, a) == a && Finish(t, b) == b && Finish(t, "") == ""
    ensures Cut(t, Reader(done, ""), a + [LF] + (b + [LF] + ("" + [LF] + rest)))
            == Cut(t, Reader(done + [a, b, ""], ""), rest)
  {
    assert "" + a == a && "" + b == b && "" + "" == "";
    CutLine(t, Reader(done, ""), a, b + [LF] + ("" + [LF] + rest));
    CutLine(t, Reader(done + [a], ""), b, "" + [LF] + rest);
    CutLine(t, Reader(done + [a] + [b], ""), "", rest);
    assert done + [a] + [b] + [""] == done + [a, b, ""];
  }

  lemma {:induction false} CutEvent(t: Text, done: seq<string>, i: nat, rest: string)
    requires ReadsAscii(t)
    ensures Cut(t, Reader(done, ""), Event(i) + rest)
            == Cut(t, Reader(done + [IdLine(i), DataLine(i), ""], ""), rest)
  {
    EventIsThreeLines(i, rest);
    WholeLine(t, "id: ", i);
    WholeLine(t, "data: event ", i);
    assert Finish(t, "") == "";
    CutThree(t, done, IdLine(i), DataLine(i), rest);
  }

  lemma {:induction false} CutEvents(t: Text, done: seq<string>, i: nat, n: nat)
    requires ReadsAscii(t)
    ensures Cut(t, Reader(done, ""), Events(i, n)) == Reader(done + EventLines(i, n), "")
    decreases n
  {
    if n == 0 {
      assert done + [] == done;
    } else {
      var three := [IdLine(i), DataLine(i), ""];
      CutEvent(t, done, i, Events(i + 1, n - 1));
      CutEvents(t, done + three, i + 1, n - 1);
      Associate(done, three, EventLines(i + 1, n - 1));
    }
  }

  lemma {:induction false} IdsOfEvent(t: Text, i: nat, rest: seq<string>)
    requires ReadsAscii(t)
    ensures Ids(t, None, [IdLine(i), DataLine(i), ""] + rest)
            == match Ids(t, None, rest) case None => None case Some(ids) => Some([i as int] + ids)
  {
    var lines := [IdLine(i), DataLine(i), ""] + rest;
    var last: seq<string> := [""] + rest;
    assert IdLine(i)[3..] == " " + Decimal(i);
    ReadIdOfDecimal(t, i);
    assert "id:" <= lines[0];
    assert Ids(t, None, lines) == Ids(t, Some(i), lines[1..]);
    assert lines[1..][0] == DataLine(i) && "data:" <= DataLine(i) && DataLine(i)[0] == 'd';
    assert lines[1..][1..] == last && last[1..] == rest;
    assert Ids(t, None, last) == Ids(t, None, rest);
  }

  lemma {:induction false} IdsOfEvents(t: Text, i: nat, n: nat)
    requires ReadsAscii(t)
    ensures Ids(t, None, EventLines(i, n)) == Some(Count(i, n))
    decreases n
  {
    if n > 0 {
      var rest := EventLines(i + 1, n - 1);
      IdsOfEvents(t, i + 1, n - 1);
      IdsOfEvent(t, i, rest);
      CountCons(i, n - 1);
      assert EventLines(i, n) == [IdLine(i), DataLine(i), ""] + rest;
    } else {
      assert Count(i, 0) == [];
    }
  }

  /** The header a client sends after it has seen `last`. */
  function HeaderOf(last: Option<nat>): string
  {
    if last.None? then "" else Decimal(last.value)
  }

  /** A reply is what the handler writes for this last id, cut anywhere. */
  predicate Answers(total: nat, batch: nat, last: Option<nat>, reply: Reply)
  {
    reply.status == 200 && Flatten(reply.chunks) == Response(HeaderOf(last), total, batch)
  }

  /** The last id of a client that has `got` events. */
  function LastOf(got: nat): Option<nat>
  {
    if got == 0 then None else Some(got - 1)
  }

  lemma {:induction false} AnswerBrings(t: Text, total: nat, batch: nat, got: nat, reply: Reply)
    requires ReadsAscii(t) && got < total <= MAX_INT && Answers(total, batch, LastOf(got), reply)
    ensures Readable(t, reply) && IdsOf(t, reply).value == Count(got, EventsLeft(got, total, batch))
  {
    if got > 0 {
      ReadIntOfDecimal(got - 1, AsciiDigit, false);
    }
    assert FirstId(HeaderOf(LastOf(got))) == got;
    var n := EventsLeft(got, total, batch);
    CutEvents(t, [], got, n);
    IdsOfEvents(t, got, n);
    assert [] + EventLines(got, n) == EventLines(got, n);
  }

  /** The replies of a server that answers each request of the client until the
      client asks no more. */
  predicate Conversation(link: Link, total: nat, batch: nat, got: nat, last: Option<nat>, replies: seq<Reply>)
    decreases |replies|
  {
    if got >= total then replies == []
    else
      && replies != [] && Answers(total, batch, last, replies[0])
      && match link(got, last, replies[0])
         case None => true
         case Some(c) => Conversation(link, total, batch, c.got, c.last, replies[1..])
  }

  /** How many connections bring `n` events. */
  function Rounds(n: nat, batch: nat): nat
    requires batch > 0
  {
    if n == 0 then 0 else 1 + Rounds(if n < batch then 0 else n - batch, batch)
  }

  lemma {:induction false} QuotientIs(x: int, b: int, q: int, r: int)
    requires 0 <= r < b && x == b * q + r
    ensures x / b == q
  {
    var e, m := x / b, x % b;
    assert x == b * e + m;
    assert b * (e - q) == r - m;
    SmallMultiple(b, e - q);
  }

  lemma {:induction false} SmallMultiple(b: int, d: int)
    requires b > 0
    ensures d > 0 ==> b * d >= b
    ensures d < 0 ==> b * d <= -b
  {
    if d > 0 {
      assert b * (d - 1) >= 0;
    } else if d < 0 {
      assert b * (-d - 1) >= 0;
    }
  }

  lemma {:induction false} RoundsIsCeiling(n: nat, batch: nat)
    requires batch > 0
    ensures Rounds(n, batch) == (n + batch - 1) / batch
  {
    if n == 0 {
      QuotientIs(batch - 1, batch, 0, batch - 1);
    } else if n < batch {
      QuotientIs(n + batch - 1, batch, 1, n - 1);
    } else {
      RoundsIsCeiling(n - batch, batch);
      var q := (n - 1) / batch;
      QuotientIs(n + batch - 1, batch, q + 1, (n - 1) % batch);
    }
  }

  /** One answered request brings the next events and the client is ready to ask on. */
  lemma {:induction false} AnswerStep(link: Link, t: Text, total: nat, batch: nat, got: nat, reply: Reply)
    requires ReadsAscii(t) && IsLink(link, t, total, batch)
    requires batch > 0 && got < total <= MAX_INT && Answers(total, batch, LastOf(got), reply)
    ensures Brings(link, total, batch, got, reply)
  {
    assert LinkAt(link, t, total, batch, got, LastOf(got), reply);
    AnswerBrings(t, total, batch, got, reply);
    CountedStep(t, total, batch, got, LastOf(got), reply);
  }

  lemma {:induction false} CountedStep(t: Text, total: nat, batch: nat, got: nat, last: Option<nat>, reply: Reply)
    requires batch > 0 && got < total
    requires Readable(t, reply) && IdsOf(t, reply).value == Count(got, EventsLeft(got, total, batch))
    ensures var c := Connection(t, total, batch, got, last, reply);
            var more := got + EventsLeft(got, total, batch);
            c.Some? && got < more <= total && c.value.got == more && c.value.last == LastOf(more)
  {
    ConnectionIsStep(t, total, batch, got, last, reply);
  }

  /** Each reply brings the next events and leaves the client ready to ask on. */
  predicate Progresses(link: Link, total: nat, batch: nat, got: nat, replies: seq<Reply>)
    decreases |replies|
  {
    if got >= total then replies == []
    else
      && replies != [] && Brings(link, total, batch, got, replies[0])
      && Progresses(link, total, batch, got + EventsLeft(got, total, batch), replies[1..])
  }

  predicate Brings(link: Link, total: nat, batch: nat, got: nat, reply: Reply)
  {
    var c, more := link(got, LastOf(got), reply), got + EventsLeft(got, total, batch);
    c.Some? && got < more <= total && c.value.got == more && c.value.last == LastOf(more)
  }

  lemma {:induction false} ConversationProgresses(link: Link, t: Text, total: nat, batch: nat, got: nat,
                                                  replies: seq<Reply>)
    requires ReadsAscii(t) && IsLink(link, t, total, batch) && batch > 0 && got <= total <= MAX_INT
    requires Conversation(link, total, batch, got, LastOf(got), replies)
    ensures Progresses(link, total, batch, got, replies)
    decreases |replies|
  {
    if got < total {
      AnswerStep(link, t, total, batch, got, replies[0]);
      ConversationProgresses(link, t, total, batch, got + EventsLeft(got, total, batch), replies[1..]);
    }
  }

  lemma {:induction false} ConversationFinishes(link: Link, total: nat, batch: nat, got: nat, replies: seq<Reply>)
    requires batch > 0 && got <= total && Progresses(link, total, batch, got, replies)
    ensures Follow(link, total, got, LastOf(got), replies) == Done(Rounds(total - got, batch), total)
    ensures |replies| == Rounds(total - got, batch)
    decreases |replies|
  {
    if got < total {
      assert Brings(link, total, batch, got, replies[0]);
      ConversationFinishes(link, total, batch, got + EventsLeft(got, total, batch), replies[1..]);
    }
  }

  /** Resume: for every total and batch, however the bytes are cut, the client
      ends without raising after ceil(total / batch) connections, having seen
      the ids from 0 to total - 1 once each and in order. */
  lemma {:induction false} ResumeDeliversEveryEventOnce(t: Text, total: nat, batch: nat, replies: seq<Reply>)
    requires ReadsAscii(t) && batch > 0 && total <= MAX_INT
    requires Conversation(Linked(t, total, batch), total, batch, 0, None, replies)
    ensures Follow(Linked(t, total, batch), total, 0, None, replies) == Done((total + batch - 1) / batch, total)
    ensures |replies| == (total + batch - 1) / batch
    ensures AllReadable(t, replies) && Flatten(AllIds(t, replies)) == Count(0, total)
  {
    LinkedIsLink(t, total, batch);
    ConversationProgresses(Linked(t, total, batch), t, total, batch, 0, replies);
    ConversationFinishes(Linked(t, total, batch), total, batch, 0, replies);
    RoundsIsCeiling(total, batch);
    AcceptsExactlyConforming(t, total, batch, 0, None, replies);
  }
}
