/** Values shared by every component: optional results, byte strings and the
    concatenation of a list of chunks. */
module Common {

  datatype Option<+T> = None | Some(value: T)

  type byte = x: int | 0 <= x < 256

  type bytes = seq<byte>

  /** The bytes of a list of chunks, in order. */
  function Flatten<T>(chunks: seq<seq<T>>): seq<T>
  {
    if chunks == [] then [] else chunks[0] + Flatten(chunks[1..])
  }

  lemma {:induction false} FlattenConcat<T>(a: seq<seq<T>>, b: seq<seq<T>>)
    ensures Flatten(a + b) == Flatten(a) + Flatten(b)
  {
    if a == [] {
      assert a + b == b;
    } else {
      assert (a + b)[1..] == a[1..] + b;
      FlattenConcat(a[1..], b);
    }
  }

  lemma {:induction false} FlattenSingle<T>(c: seq<T>)
    ensures Flatten([c]) == c
  {
    assert [c][1..] == [];
  }

  lemma {:induction false} FlattenAppend<T>(a: seq<seq<T>>, c: seq<T>)
    ensures Flatten(a + [c]) == Flatten(a) + c
  {
    FlattenConcat(a, [c]);
    FlattenSingle(c);
  }

  /** A shorter list of chunks is a prefix of the bytes of a longer one. */
  lemma {:induction false} FlattenTake<T>(a: seq<seq<T>>, k: nat)
    requires k <= |a|
    ensures |Flatten(a[..k])| <= |Flatten(a)|
    ensures Flatten(a[..k]) == Flatten(a)[..|Flatten(a[..k])|]
  {
    assert a[..k] + a[k..] == a;
    FlattenConcat(a[..k], a[k..]);
  }

  /** What follows the first `n` elements. */
  function From<T>(s: seq<T>, n: nat): seq<T>
    requires n <= |s|
  {
    if n == 0 then s else s[n..]
  }

  lemma {:induction false} PopFront<T>(whole: seq<T>, s: seq<T>, n: nat)
    requires n < |whole| && s == From(whole, n)
    ensures s[0] == whole[n] && s[1..] == From(whole, n + 1)
  {
  }
}
