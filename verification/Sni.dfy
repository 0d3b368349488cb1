/** Choosing a certificate by the requested server name: exact host names first, then
    one-label wildcards, ASCII case ignored. Names arrive as C strings. */
module Sni {
  import opened Common

  const NUL: byte := 0
  const DOT: byte := 46
  const STAR: byte := 42

  function Lower(c: byte): byte
  {
    if 65 <= c <= 90 then c + 32 else c
  }

  function Fold(s: bytes): (r: bytes)
    ensures |r| == |s| && forall i | 0 <= i < |s| :: r[i] == Lower(s[i])
  {
    seq(|s|, i requires 0 <= i < |s| => Lower(s[i]))
  }

  /** A NUL-terminated string: exactly one NUL, at the end. */
  predicate IsCString(s: bytes)
  {
    |s| > 0 && s[|s| - 1] == NUL && forall i | 0 <= i < |s| - 1 :: s[i] != NUL
  }

  /** Its characters. */
  function Text(s: bytes): bytes
    requires IsCString(s)
  {
    s[..|s| - 1]
  }

  // ---- what matching means -------------------------------------------------

  predicate SameName(name: bytes, host: bytes)
  {
    Fold(name) == Fold(host)
  }

  /** The same character, or the two cases of one ASCII letter. */
  predicate SameLetter(a: byte, b: byte)
  {
    || a == b
    || ('A' as int <= a <= 'Z' as int && b - a == 'a' as int - 'A' as int)
    || ('A' as int <= b <= 'Z' as int && a - b == 'a' as int - 'A' as int)
  }

  ghost predicate SameLetters(s: bytes, t: bytes)
  {
    |s| == |t| && forall i | 0 <= i < |s| :: SameLetter(s[i], t[i])
  }

  /** Names are compared letter by letter, with nothing but ASCII case ignored. */
  lemma {:induction false} FoldIgnoresCaseOnly(s: bytes, t: bytes)
    ensures Fold(s) == Fold(t) <==> SameLetters(s, t)
  {
    forall i | 0 <= i < |s| && i < |t|
      ensures Fold(s)[i] == Fold(t)[i] <==> SameLetter(s[i], t[i])
    {
    }
    if SameLetters(s, t) {
      assert forall i | 0 <= i < |s| :: Fold(s)[i] == Fold(t)[i];
    }
  }

  /** `k` splits the name into one non-empty label and the pattern's suffix, dot included. */
  predicate WildSplit(name: bytes, pat: bytes, k: nat)
  {
    && |pat| >= 3 && pat[0] == STAR && pat[1] == DOT
    && 0 < k < |name| && DOT !in name[..k] && name[k] == DOT
    && Fold(name[k..]) == Fold(pat[1..])
  }

  ghost predicate WildName(name: bytes, pat: bytes)
  {
    exists k: nat :: WildSplit(name, pat, k)
  }

  // ---- the loops -----------------------------------------------------------

  method HostEq(name: bytes, host: bytes) returns (eq: bool)
    requires IsCString(name)
    ensures eq <==> SameName(Text(name), host)
  {
    var i := 0;
    while i < |host|
      invariant 0 <= i <= |host| && i < |name|
      invariant forall j | 0 <= j < i :: Lower(name[j]) == Lower(host[j])
    {
      if name[i] == NUL || Lower(name[i]) != Lower(host[i]) {
        assert i < |Text(name)| ==> Fold(Text(name))[i] != Fold(host)[i];
        return false;
      }
      i := i + 1;
    }
    return name[i] == NUL;
  }

  /** Where the first label ends: the first dot, or the terminator. */
  method LabelEnd(name: bytes) returns (dot: nat)
    requires IsCString(name)
    ensures dot < |name| && (name[dot] == NUL || name[dot] == DOT)
    ensures forall j | 0 <= j < dot :: name[j] != NUL && name[j] != DOT
  {
    dot := 0;
    while name[dot] != NUL && name[dot] != DOT
      invariant dot < |name|
      invariant forall j | 0 <= j < dot :: name[j] != NUL && name[j] != DOT
      decreases |name| - dot
    {
      dot := dot + 1;
    }
  }

  /** The name from `dot` on against the pattern from its dot on. */
  method SuffixEq(name: bytes, dot: nat, pat: bytes) returns (eq: bool)
    requires IsCString(name) && dot < |name| && |pat| > 0
    ensures eq <==> Fold(Text(name)[dot..]) == Fold(pat[1..])
  {
    ghost var rest, suffix := name[dot..], pat[1..];
    assert IsCString(rest) && Text(rest) == Text(name)[dot..];
    var i, j := dot, 1;
    while j < |pat|
      invariant 1 <= j <= |pat| && i == dot + j - 1 && i < |name|
      invariant forall k | 0 <= k < j - 1 :: Lower(rest[k]) == Lower(suffix[k])
    {
      assert rest[j - 1] == name[i] && suffix[j - 1] == pat[j];
      if name[i] == NUL || Lower(name[i]) != Lower(pat[j]) {
        assert j - 1 < |Text(rest)| ==> Fold(Text(rest))[j - 1] != Fold(suffix)[j - 1];
        return false;
      }
      i, j := i + 1, j + 1;
    }
    return name[i] == NUL;
  }

  method HostWildMatch(name: bytes, pat: bytes) returns (m: bool)
    requires IsCString(name)
    ensures m <==> WildName(Text(name), pat)
  {
    if |pat| < 3 || pat[0] != STAR || pat[1] != DOT {
      return false;
    }
    var dot := LabelEnd(name);
    SplitIsFirstDot(Text(name), pat, dot);
    if dot == 0 || name[dot] != DOT {
      return false;
    }
    m := SuffixEq(name, dot, pat);
  }

  /** Only the first dot can be the split. */
  lemma {:induction false} SplitIsFirstDot(name: bytes, pat: bytes, dot: nat)
    requires dot <= |name| && DOT !in name[..dot] && (dot < |name| ==> name[dot] == DOT)
    ensures WildName(name, pat) <==> WildSplit(name, pat, dot)
  {
    forall k: nat | WildSplit(name, pat, k)
      ensures k == dot
    {
    }
  }

  // ---- the choice ----------------------------------------------------------

  /** `r` is the least index of a match, or none exists. */
  ghost predicate FirstWhere(matches: seq<bool>, r: Option<nat>)
  {
    match r
    case Some(i) => i < |matches| && matches[i] && forall j | 0 <= j < i :: !matches[j]
    case None => forall j | 0 <= j < |matches| :: !matches[j]
  }

  ghost function Exact(name: bytes, hosts: seq<bytes>): seq<bool>
  {
    seq(|hosts|, i requires 0 <= i < |hosts| => SameName(name, hosts[i]))
  }

  ghost function Wild(name: bytes, hosts: seq<bytes>): seq<bool>
  {
    seq(|hosts|, i requires 0 <= i < |hosts| => WildName(name, hosts[i]))
  }

  /** The declared choice: the least exact host, else the least wildcard, else none. */
  ghost predicate Chosen(name: bytes, hosts: seq<bytes>, r: Option<nat>)
  {
    if exists i | 0 <= i < |hosts| :: SameName(name, hosts[i])
    then r.Some? && FirstWhere(Exact(name, hosts), r)
    else FirstWhere(Wild(name, hosts), r)
  }

  /** servernameCb: the index of the host context to switch to; no name or no match
      keeps the default context. */
  method Select(name: Option<bytes>, hosts: seq<bytes>) returns (r: Option<nat>)
    requires name.Some? ==> IsCString(name.value)
    ensures name.None? ==> r.None?
    ensures name.Some? ==> Chosen(Text(name.value), hosts, r)
    ensures r.Some? ==> r.value < |hosts|
  {
    if name.None? {
      return None;
    }
    for i := 0 to |hosts|
      invariant forall j | 0 <= j < i :: !SameName(Text(name.value), hosts[j])
    {
      var eq := HostEq(name.value, hosts[i]);
      if eq {
        return Some(i);
      }
    }
    for i := 0 to |hosts|
      invariant forall j | 0 <= j < i :: !WildName(Text(name.value), hosts[j])
    {
      var m := HostWildMatch(name.value, hosts[i]);
      if m {
        return Some(i);
      }
    }
    return None;
  }

  /** The choice is determined by the name and the hosts. */
  lemma {:induction false} ChoiceIsUnique(name: bytes, hosts: seq<bytes>, a: Option<nat>, b: Option<nat>)
    requires Chosen(name, hosts, a) && Chosen(name, hosts, b)
    ensures a == b
  {
    var m := if exists i | 0 <= i < |hosts| :: SameName(name, hosts[i]) then Exact(name, hosts) else Wild(name, hosts);
    assert FirstWhere(m, a) && FirstWhere(m, b);
  }

  lemma {:induction false} RecasedSplit(name: bytes, other: bytes, pat: bytes, k: nat)
    requires SameName(name, other) && WildSplit(name, pat, k)
    ensures WildSplit(other, pat, k)
  {
    var f := Fold(name);
    assert f == Fold(other);
    forall i | 0 <= i < |name|
      ensures Lower(name[i]) == Lower(other[i]) && (name[i] == DOT <==> other[i] == DOT)
    {
      assert f[i] == Lower(name[i]) == Lower(other[i]);
    }
    forall i | 0 <= i < k
      ensures other[..k][i] != DOT
    {
      assert name[..k][i] != DOT;
    }
    assert Fold(other[k..]) == Fold(name[k..]);
  }

  /** The choice does not depend on the casing of the requested name. */
  lemma {:induction false} ChoiceIgnoresCase(name: bytes, other: bytes, hosts: seq<bytes>, r: Option<nat>)
    requires SameName(name, other)
    ensures Chosen(name, hosts, r) <==> Chosen(other, hosts, r)
  {
    forall i | 0 <= i < |hosts|
      ensures WildName(name, hosts[i]) <==> WildName(other, hosts[i])
    {
      if WildName(name, hosts[i]) {
        var k: nat :| WildSplit(name, hosts[i], k);
        RecasedSplit(name, other, hosts[i], k);
      }
      if WildName(other, hosts[i]) {
        var k: nat :| WildSplit(other, hosts[i], k);
        RecasedSplit(other, name, hosts[i], k);
      }
    }
    assert Exact(name, hosts) == Exact(other, hosts);
    assert Wild(name, hosts) == Wild(other, hosts);
  }
}
