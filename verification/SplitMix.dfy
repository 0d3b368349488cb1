/** Handing a budget of workers out over the slices of a mixed load: one worker for each
    streaming slice, the rest split over the request-shaped slices by largest remainder,
    with a floor of one. Quotas are exact fractions with a common denominator, so a share
    is a quotient and its fraction a remainder. */
module SplitMix {
  import opened Common

  datatype Share = Share(name: string, weight: nat)

  predicate Streaming(name: string)
  {
    name == "streamupload" || name == "streamdownload"
  }

  /** The request-shaped slices, in order. */
  function Requests(shares: seq<Share>): (r: seq<Share>)
    ensures |r| <= |shares|
  {
    if shares == [] then []
    else if Streaming(shares[0].name) then Requests(shares[1..])
    else [shares[0]] + Requests(shares[1..])
  }

  function Sum(s: seq<nat>): nat
  {
    if s == [] then 0 else s[0] + Sum(s[1..])
  }

  function Weights(shares: seq<Share>): (r: seq<nat>)
    ensures |r| == |shares| && forall i | 0 <= i < |r| :: r[i] == shares[i].weight
  {
    if shares == [] then [] else [shares[0].weight] + Weights(shares[1..])
  }

  lemma {:induction false} SumConcat(a: seq<nat>, b: seq<nat>)
    ensures Sum(a + b) == Sum(a) + Sum(b)
  {
    if a == [] {
      assert a + b == b;
    } else {
      assert (a + b)[1..] == a[1..] + b;
      SumConcat(a[1..], b);
    }
  }

  lemma {:induction false} SumUpdate(s: seq<nat>, i: nat, x: nat)
    requires i < |s|
    ensures Sum(s[i := x]) == Sum(s) - s[i] + x
  {
    assert s == s[..i] + [s[i]] + s[i + 1..];
    assert s[i := x] == s[..i] + [x] + s[i + 1..];
    SumConcat(s[..i] + [s[i]], s[i + 1..]);
    SumConcat(s[..i], [s[i]]);
    SumConcat(s[..i] + [x], s[i + 1..]);
    SumConcat(s[..i], [x]);
  }

  /** Elements bounded below force the sum up. */
  lemma {:induction false} SumAtLeast(s: seq<nat>, lo: nat)
    requires forall i | 0 <= i < |s| :: s[i] >= lo
    ensures Sum(s) >= lo * |s|
  {
    if s != [] {
      SumAtLeast(s[1..], lo);
      assert lo * |s| == lo + lo * |s[1..]|;
    }
  }

  /** Elements bounded above hold the sum down. */
  lemma {:induction false} SumAtMost(s: seq<nat>, hi: nat)
    requires forall i | 0 <= i < |s| :: s[i] <= hi
    ensures Sum(s) <= hi * |s|
  {
    if s != [] {
      SumAtMost(s[1..], hi);
      assert hi * |s| == hi + hi * |s[1..]|;
    }
  }

  // ---- quotas --------------------------------------------------------------

  /** Whole part of the quota left * w / total, and the numerator of its fraction. */
  function Whole(left: nat, w: nat, total: nat): nat
    requires total > 0
  {
    left * w / total
  }

  function Fraction(left: nat, w: nat, total: nat): (r: nat)
    requires total > 0
    ensures r < total
  {
    left * w % total
  }

  lemma {:induction false} QuotaParts(left: nat, w: nat, total: nat)
    requires total > 0
    ensures total * Whole(left, w, total) + Fraction(left, w, total) == left * w
  {
  }

  function Floors(left: nat, ws: seq<nat>, total: nat): (r: seq<nat>)
    requires total > 0
    ensures |r| == |ws|
  {
    if ws == [] then [] else [Whole(left, ws[0], total)] + Floors(left, ws[1..], total)
  }

  function Remainders(left: nat, ws: seq<nat>, total: nat): (r: seq<nat>)
    requires total > 0
    ensures |r| == |ws| && forall i | 0 <= i < |ws| :: r[i] < total
  {
    if ws == [] then [] else [Fraction(left, ws[0], total)] + Remainders(left, ws[1..], total)
  }

  lemma {:induction false} QuotaAt(left: nat, ws: seq<nat>, total: nat, i: nat)
    requires total > 0 && i < |ws|
    ensures Floors(left, ws, total)[i] == Whole(left, ws[i], total)
    ensures Remainders(left, ws, total)[i] == Fraction(left, ws[i], total)
  {
    if i > 0 {
      QuotaAt(left, ws[1..], total, i - 1);
    }
  }

  lemma {:induction false} AddQuota(total: nat, q: nat, m: nat, f: nat, r: nat, left: nat, w: nat, rest: nat)
    requires total * q + m == left * w && total * f + r == left * rest
    ensures total * (q + f) + (m + r) == left * (w + rest)
  {
  }

  /** The quotas add up to what is handed out: nothing is lost in the fractions. */
  lemma {:induction false} QuotasAddUp(left: nat, ws: seq<nat>, total: nat)
    requires total > 0
    ensures total * Sum(Floors(left, ws, total)) + Sum(Remainders(left, ws, total)) == left * Sum(ws)
  {
    if ws != [] {
      var f, r := Floors(left, ws[1..], total), Remainders(left, ws[1..], total);
      QuotasAddUp(left, ws[1..], total);
      QuotaParts(left, ws[0], total);
      AddQuota(total, Whole(left, ws[0], total), Fraction(left, ws[0], total), Sum(f), Sum(r), left, ws[0],
        Sum(ws[1..]));
      assert Floors(left, ws, total)[1..] == f && Remainders(left, ws, total)[1..] == r;
    }
  }

  lemma {:induction false} Between(total: nat, f: nat, r: nat, left: nat, n: nat)
    requires total > 0 && total * f + r == left * total && r < total * n
    ensures f <= left < f + n
  {
    var d := left - f;
    assert total * d == r;
    assert d >= 0;
    assert d < n;
  }

  /** Strictly bounded elements keep the sum strictly below. */
  lemma {:induction false} SumBelow(s: seq<nat>, hi: nat)
    requires s != [] && forall i | 0 <= i < |s| :: s[i] < hi
    ensures Sum(s) < hi * |s|
  {
    if |s| == 1 {
      assert s[1..] == [];
    } else {
      SumBelow(s[1..], hi);
      assert hi * |s| == hi + hi * |s[1..]|;
    }
  }

  /** With weights to share by, the spare left by rounding down is below the number of
      slices: each can get at most one more. */
  lemma {:induction false} SpareIsSmall(left: nat, ws: seq<nat>)
    requires ws != [] && Sum(ws) > 0
    ensures Sum(Floors(left, ws, Sum(ws))) <= left < Sum(Floors(left, ws, Sum(ws))) + |ws|
  {
    var total := Sum(ws);
    QuotasAddUp(left, ws, total);
    SumBelow(Remainders(left, ws, total), total);
    Between(total, Sum(Floors(left, ws, total)), Sum(Remainders(left, ws, total)), left, |ws|);
  }

  // ---- the order of the remainders ------------------------------------------

  /** `a` comes before `b`: larger remainder, or the same and earlier in the list. */
  predicate Before(rems: seq<nat>, a: nat, b: nat)
    requires a < |rems| && b < |rems|
  {
    rems[a] > rems[b] || (rems[a] == rems[b] && a < b)
  }

  /** Listed indices are in range and each comes before all later ones. */
  ghost predicate Ordered(rems: seq<nat>, order: seq<nat>)
  {
    && (forall k | 0 <= k < |order| :: order[k] < |rems|)
    && (forall i, j | 0 <= i < j < |order| :: Before(rems, order[i], order[j]))
  }

  /** Put the next index behind everything that is not smaller. */
  function Insert(rems: seq<nat>, order: seq<nat>, x: nat): (r: seq<nat>)
    requires x < |rems| && forall k | 0 <= k < |order| :: order[k] < x
    ensures |r| == |order| + 1 && forall y :: y in r <==> y == x || y in order
  {
    if order == [] then [x]
    else if rems[order[0]] >= rems[x] then
      var t := Insert(rems, order[1..], x);
      assert forall y :: y in order <==> y == order[0] || y in order[1..];
      [order[0]] + t
    else [x] + order
  }

  lemma {:induction false} InsertOrdered(rems: seq<nat>, order: seq<nat>, x: nat)
    requires x < |rems| && (forall k | 0 <= k < |order| :: order[k] < x) && Ordered(rems, order)
    ensures Ordered(rems, Insert(rems, order, x))
  {
    var r := Insert(rems, order, x);
    assert forall k | 0 <= k < |r| :: r[k] in r;
    if order != [] && rems[order[0]] >= rems[x] {
      var t := Insert(rems, order[1..], x);
      assert forall k | 0 <= k < |order[1..]| :: order[1..][k] == order[k + 1];
      InsertOrdered(rems, order[1..], x);
      forall j | 0 <= j < |t|
        ensures Before(rems, order[0], t[j])
      {
        assert t[j] in t;
        if t[j] != x {
          var k :| 0 <= k < |order[1..]| && order[1..][k] == t[j];
          assert order[k + 1] == t[j];
        }
      }
      assert r == [order[0]] + t;
    } else if order != [] {
      forall j | 0 <= j < |order|
        ensures Before(rems, x, order[j])
      {
        assert j > 0 ==> Before(rems, order[0], order[j]);
      }
    }
  }

  function SortUpTo(rems: seq<nat>, n: nat): (r: seq<nat>)
    requires n <= |rems|
    ensures |r| == n && (forall k | 0 <= k < n :: r[k] < n) && forall a: nat | a < n :: a in r
  {
    if n == 0 then []
    else
      var r := Insert(rems, SortUpTo(rems, n - 1), n - 1);
      assert forall k | 0 <= k < |r| :: r[k] in r;
      r
  }

  lemma {:induction false} SortUpToOrdered(rems: seq<nat>, n: nat)
    requires n <= |rems|
    ensures Ordered(rems, SortUpTo(rems, n))
  {
    if n > 0 {
      SortUpToOrdered(rems, n - 1);
      InsertOrdered(rems, SortUpTo(rems, n - 1), n - 1);
    }
  }

  /** The stable descending sort of the slices by remainder: a permutation, in order. */
  function ByRemainder(rems: seq<nat>): (r: seq<nat>)
    ensures |r| == |rems| && (forall k | 0 <= k < |r| :: r[k] < |rems|) && forall a: nat | a < |rems| :: a in r
    ensures Ordered(rems, r)
  {
    SortUpToOrdered(rems, |rems|);
    SortUpTo(rems, |rems|)
  }

  // ---- largest remainder -----------------------------------------------------

  /** Every share is its quota rounded down or that plus one, and whoever got the extra
      worker comes before whoever did not. */
  ghost predicate RoundedByRank(alloc: seq<nat>, floors: seq<nat>, rems: seq<nat>)
    requires |floors| == |rems|
  {
    && |alloc| == |floors|
    && (forall i | 0 <= i < |alloc| :: RoundedAt(alloc, floors, i))
    && (forall i, j | 0 <= i < |alloc| && 0 <= j < |alloc| :: Ranked(alloc, floors, rems, i, j))
  }

  predicate RoundedAt(alloc: seq<nat>, floors: seq<nat>, i: nat)
    requires |alloc| == |floors| && i < |alloc|
  {
    alloc[i] == floors[i] || alloc[i] == floors[i] + 1
  }

  predicate Ranked(alloc: seq<nat>, floors: seq<nat>, rems: seq<nat>, i: nat, j: nat)
    requires |alloc| == |floors| == |rems| && i < |alloc| && j < |alloc|
  {
    alloc[i] > floors[i] && alloc[j] == floors[j] ==> Before(rems, i, j)
  }

  /** Hand `spare` workers out, one each, down the order. */
  method GiveSpare(floors: seq<nat>, ghost rems: seq<nat>, order: seq<nat>, spare: int) returns (alloc: seq<nat>)
    requires |floors| == |rems| == |order| && Ordered(rems, order) && forall a: nat | a < |rems| :: a in order
    ensures RoundedByRank(alloc, floors, rems)
    ensures Sum(alloc) == Sum(floors) + if spare <= 0 then 0 else if spare <= |order| then spare else |order|
    ensures spare >= |order| ==> forall a | 0 <= a < |alloc| :: alloc[a] == floors[a] + 1
  {
    alloc := floors;
    var left, k := spare, 0;
    while k < |order| && left > 0
      invariant 0 <= k <= |order| && |alloc| == |floors|
      invariant left == spare - k && (k > 0 ==> left >= 0) && Sum(alloc) == Sum(floors) + k
      invariant forall a | 0 <= a < |alloc| :: alloc[a] == floors[a] + if a in order[..k] then 1 else 0
    {
      var x := order[k];
      NotYet(rems, order, k);
      SumUpdate(alloc, x, alloc[x] + 1);
      alloc := alloc[x := alloc[x] + 1];
      assert order[..k + 1] == order[..k] + [x];
      left, k := left - 1, k + 1;
    }
    RankFromPrefix(alloc, floors, rems, order, k);
    if spare >= |order| {
      assert order[..k] == order;
    }
  }

  /** The largest-remainder split: by the weights, or evenly when there are none. */
  ghost predicate RoundedSplit(left: nat, ws: seq<nat>, alloc: seq<nat>)
    requires ws != []
  {
    var total := if Sum(ws) > 0 then Sum(ws) else |ws|;
    RoundedByRank(alloc, Floors(left, ws, total), Remainders(left, ws, total)) && (Sum(ws) > 0 ==> Sum(alloc) == left)
  }

  method LargestRemainder(left: nat, ws: seq<nat>) returns (alloc: seq<nat>)
    requires ws != []
    ensures |alloc| == |ws| && RoundedSplit(left, ws, alloc)
    ensures Sum(ws) > 0 ==> Sum(alloc) == left
    ensures Sum(ws) == 0 && left >= |ws| ==> Sum(alloc) == |ws|
  {
    var total := if Sum(ws) > 0 then Sum(ws) else |ws|;
    var floors, rems := Floors(left, ws, total), Remainders(left, ws, total);
    alloc := GiveSpare(floors, rems, ByRemainder(rems), left - Sum(floors));
    if Sum(ws) > 0 {
      SpareIsSmall(left, ws);
    } else {
      NoWeights(left, ws);
    }
  }

  lemma {:induction false} NotYet(rems: seq<nat>, order: seq<nat>, k: nat)
    requires Ordered(rems, order) && k < |order|
    ensures order[k] !in order[..k]
  {
    forall j | 0 <= j < k
      ensures order[..k][j] != order[k]
    {
      assert Before(rems, order[j], order[k]);
    }
  }

  lemma {:induction false} RankFromPrefix(alloc: seq<nat>, floors: seq<nat>, rems: seq<nat>, order: seq<nat>, k: nat)
    requires |alloc| == |floors| == |rems| == |order| && k <= |order| && Ordered(rems, order)
    requires forall a: nat | a < |rems| :: a in order
    requires forall a | 0 <= a < |alloc| :: alloc[a] == floors[a] + if a in order[..k] then 1 else 0
    ensures RoundedByRank(alloc, floors, rems)
  {
    forall i, j | 0 <= i < |alloc| && 0 <= j < |alloc|
      ensures Ranked(alloc, floors, rems, i, j)
    {
      if alloc[i] > floors[i] && alloc[j] == floors[j] {
        var a :| 0 <= a < k && order[a] == i;
        assert j in order;
        var b :| 0 <= b < |order| && order[b] == j;
        assert a < b;
      }
    }
  }

  /** Without any weight every quota is zero. */
  lemma {:induction false} NoWeights(left: nat, ws: seq<nat>)
    requires Sum(ws) == 0
    ensures forall i | 0 <= i < |ws| :: ws[i] == 0
    ensures |ws| > 0
            ==> (forall i | 0 <= i < |ws| :: Floors(left, ws, |ws|)[i] == 0) && Sum(Floors(left, ws, |ws|)) == 0
  {
    if ws != [] {
      NoWeights(left, ws[1..]);
      var f := Floors(left, ws, |ws|);
      forall i | 0 <= i < |ws|
        ensures f[i] == 0 && ws[i] == 0
      {
        assert i > 0 ==> ws[i] == ws[1..][i - 1];
        assert left * 0 / |ws| == 0;
        QuotaAt(left, ws, |ws|, i);
      }
      SumAtMost(f, 0);
    }
  }

  /** What slice j got beyond its floor covers at least its remainder. */
  predicate CoversAt(alloc: seq<nat>, floors: seq<nat>, rems: seq<nat>, total: nat, j: nat)
    requires |alloc| == |floors| == |rems| && j < |alloc|
  {
    total * alloc[j] >= total * floors[j] + rems[j]
  }

  lemma {:induction false} Distribute(total: nat, x: nat, y: nat)
    ensures total * (x + y) == total * x + total * y
  {
  }

  lemma {:induction false} SumCovers(alloc: seq<nat>, floors: seq<nat>, rems: seq<nat>, total: nat, i: nat)
    requires |alloc| == |floors| == |rems| && i <= |alloc|
    requires forall j | 0 <= j < |alloc| :: CoversAt(alloc, floors, rems, total, j)
    ensures total * Sum(alloc) >= total * Sum(floors) + Sum(rems)
    ensures i < |alloc| && total * alloc[i] > total * floors[i] + rems[i] ==>
              total * Sum(alloc) > total * Sum(floors) + Sum(rems)
  {
    if alloc != [] {
      assert CoversAt(alloc, floors, rems, total, 0);
      forall j | 0 <= j < |alloc| - 1
        ensures CoversAt(alloc[1..], floors[1..], rems[1..], total, j)
      {
        assert CoversAt(alloc, floors, rems, total, j + 1);
      }
      SumCovers(alloc[1..], floors[1..], rems[1..], total, if i == 0 then |alloc| - 1 else i - 1);
      Distribute(total, alloc[0], Sum(alloc[1..]));
      Distribute(total, floors[0], Sum(floors[1..]));
    }
  }

  /** A slice whose quota is a whole number gets exactly that: with the rank rule this
      makes every share the floor or the ceiling of its quota. */
  lemma {:induction false} WholeQuotaStays(left: nat, ws: seq<nat>, alloc: seq<nat>, i: nat)
    requires Sum(ws) > 0 && i < |ws| && RoundedSplit(left, ws, alloc)
    requires Remainders(left, ws, Sum(ws))[i] == 0
    ensures alloc[i] == Floors(left, ws, Sum(ws))[i]
  {
    var total := Sum(ws);
    var floors, rems := Floors(left, ws, total), Remainders(left, ws, total);
    assert RoundedAt(alloc, floors, i);
    QuotasAddUp(left, ws, total);
    assert total * left == left * total;
    if alloc[i] == floors[i] + 1 {
      forall j | 0 <= j < |alloc|
        ensures CoversAt(alloc, floors, rems, total, j)
      {
        assert RoundedAt(alloc, floors, j) && Ranked(alloc, floors, rems, i, j);
        Distribute(total, floors[j], 1);
      }
      Distribute(total, floors[i], 1);
      SumCovers(alloc, floors, rems, total, i);
      assert false;
    }
  }

  /** A heavier slice never gets less, and of two equal ones the earlier never gets less. */
  lemma {:induction false} ShareGrowsWithWeight(left: nat, ws: seq<nat>, alloc: seq<nat>, i: nat, j: nat)
    requires Sum(ws) > 0 && left > 0 && i < |ws| && j < |ws|
    requires RoundedByRank(alloc, Floors(left, ws, Sum(ws)), Remainders(left, ws, Sum(ws)))
    requires ws[i] < ws[j] || (ws[i] == ws[j] && j < i)
    ensures alloc[i] <= alloc[j]
  {
    var total := Sum(ws);
    var floors := Floors(left, ws, total);
    assert RoundedAt(alloc, floors, i) && RoundedAt(alloc, floors, j);
    assert Ranked(alloc, floors, Remainders(left, ws, total), i, j);
    QuotaAt(left, ws, total, i);
    QuotaAt(left, ws, total, j);
    QuotaParts(left, ws[i], total);
    QuotaParts(left, ws[j], total);
    QuotaMonotone(left, ws[i], ws[j], total);
  }

  lemma {:induction false} QuotientMonotone(a: nat, b: nat, total: nat)
    requires total > 0 && a <= b
    ensures a / total <= b / total
  {
    var q, p := a / total, b / total;
    if p < q {
      TimesMonotone(total, p + 1, q);
    }
    assert total * (p + 1) == total * p + total;
  }

  lemma {:induction false} TimesMonotone(t: nat, x: nat, y: nat)
    requires x <= y
    ensures t * x <= t * y
  {
    assert t * y == t * x + t * (y - x);
  }

  lemma {:induction false} QuotaMonotone(left: nat, v: nat, w: nat, total: nat)
    requires total > 0 && v <= w
    ensures Whole(left, v, total) <= Whole(left, w, total)
    ensures Whole(left, v, total) == Whole(left, w, total) ==> Fraction(left, v, total) <= Fraction(left, w, total)
    ensures Whole(left, v, total) == Whole(left, w, total) && left > 0 && v < w
            ==> Fraction(left, v, total) < Fraction(left, w, total)
  {
    var a, b := left * v, left * w;
    assert a <= b && (left > 0 && v < w ==> a < b);
    var q, p := a / total, b / total;
    assert a == total * q + a % total && b == total * p + b % total;
    QuotientMonotone(a, b, total);
  }

  // ---- the floor of one ------------------------------------------------------

  method FirstMax(alloc: seq<nat>) returns (d: nat)
    requires alloc != []
    ensures d < |alloc| && (forall j | 0 <= j < |alloc| :: alloc[j] <= alloc[d])
            && forall j | 0 <= j < d :: alloc[j] < alloc[d]
  {
    d := 0;
    for k := 1 to |alloc|
      invariant d < k
      invariant forall j | 0 <= j < k :: alloc[j] <= alloc[d]
      invariant forall j | 0 <= j < d :: alloc[j] < alloc[d]
    {
      if alloc[k] > alloc[d] {
        d := k;
      }
    }
  }

  /** Where one slice has none and there is a worker for each, some slice has two. */
  lemma {:induction false} SomeoneHasTwo(alloc: seq<nat>, k: nat, d: nat)
    requires k < |alloc| && alloc[k] == 0 && Sum(alloc) >= |alloc|
    requires d < |alloc| && forall j | 0 <= j < |alloc| :: alloc[j] <= alloc[d]
    ensures alloc[d] >= 2
  {
    if alloc[d] <= 1 {
      SumUpdate(alloc, k, 1);
      SumAtMost(alloc[k := 1], 1);
    }
  }

  /** Every slice without a worker got exactly one; nobody else was raised or emptied; and
      the donors are the largest, the earlier of equals first: whoever gave ends no lower
      than any earlier slice and at most one below any later one. */
  ghost predicate Leveled(before: seq<nat>, after: seq<nat>)
  {
    && |after| == |before| && Sum(after) == Sum(before)
    && (forall i | 0 <= i < |after| :: RaisedAt(before, after, i))
    && (forall i, j | 0 <= i < |after| && 0 <= j < |after| :: GaveAsLargest(before, after, i, j))
  }

  predicate RaisedAt(before: seq<nat>, after: seq<nat>, i: nat)
    requires |after| == |before| && i < |after|
  {
    if before[i] == 0 then after[i] == 1 else 1 <= after[i] <= before[i]
  }

  predicate GaveAsLargest(before: seq<nat>, after: seq<nat>, i: nat, j: nat)
    requires |after| == |before| && i < |after| && j < |after|
  {
    after[j] < before[j] ==> after[i] <= if i < j then after[j] else after[j] + 1
  }

  /** The first slice without a worker from `k` on gets one from the largest. */
  lemma {:induction false} DonationKeeps(alloc: seq<nat>, r: seq<nat>, k: nat, d: nat)
    requires |r| == |alloc| && k < |r| && d < |r| && r[k] == 0 && alloc[k] == 0 && r[d] >= 2
    requires forall j | 0 <= j < |r| :: r[j] <= r[d]
    requires forall j | 0 <= j < d :: r[j] < r[d]
    requires forall i, j | 0 <= i < |r| && 0 <= j < |r| :: GaveAsLargest(alloc, r, i, j)
    ensures var s := r[d := r[d] - 1][k := 1];
            forall i, j | 0 <= i < |r| && 0 <= j < |r| :: GaveAsLargest(alloc, s, i, j)
  {
    var s := r[d := r[d] - 1][k := 1];
    forall i, j | 0 <= i < |r| && 0 <= j < |r|
      ensures GaveAsLargest(alloc, s, i, j)
    {
      assert GaveAsLargest(alloc, r, i, j) && GaveAsLargest(alloc, r, d, j);
    }
  }

  method FloorAtOne(alloc: seq<nat>) returns (r: seq<nat>)
    requires Sum(alloc) >= |alloc|
    ensures Leveled(alloc, r)
  {
    r := alloc;
    for k := 0 to |alloc|
      invariant |r| == |alloc| && Sum(r) == Sum(alloc)
      invariant forall i | 0 <= i < |r| :: if alloc[i] == 0 then r[i] == (if i < k then 1 else 0)
                else 1 <= r[i] <= alloc[i]
      invariant forall i, j | 0 <= i < |r| && 0 <= j < |r| :: GaveAsLargest(alloc, r, i, j)
    {
      if alloc[k] == 0 {
        var d := FirstMax(r);
        SomeoneHasTwo(r, k, d);
        SumUpdate(r, d, r[d] - 1);
        SumUpdate(r[d := r[d] - 1], k, 1);
        DonationKeeps(alloc, r, k, d);
        r := r[d := r[d] - 1][k := 1];
      }
    }
  }

  lemma {:induction false} LeveledFloor(before: seq<nat>, after: seq<nat>)
    requires Leveled(before, after)
    ensures forall i | 0 <= i < |after| :: after[i] >= 1
  {
    forall i | 0 <= i < |after|
      ensures after[i] >= 1
    {
      assert RaisedAt(before, after, i);
    }
  }

  // ---- the whole split -------------------------------------------------------

  ghost predicate DistinctNames(shares: seq<Share>)
  {
    forall i, j | 0 <= i < j < |shares| :: shares[i].name != shares[j].name
  }

  lemma {:induction false} RequestsOf(shares: seq<Share>)
    ensures forall x :: x in Requests(shares) <==> x in shares && !Streaming(x.name)
    ensures DistinctNames(shares) ==> DistinctNames(Requests(shares))
  {
    if shares != [] {
      var rest := Requests(shares[1..]);
      RequestsOf(shares[1..]);
      assert forall x :: x in shares <==> x == shares[0] || x in shares[1..];
      if DistinctNames(shares) {
        forall k | 0 <= k < |rest|
          ensures rest[k].name != shares[0].name
        {
          assert rest[k] in rest;
          var i :| 0 <= i < |shares[1..]| && shares[1..][i] == rest[k];
          assert shares[i + 1] == rest[k];
        }
      }
    }
  }

  /** What a table gives each slice, in order. */
  function Lookup(shares: seq<Share>, out: map<string, nat>): (r: seq<nat>)
    requires forall i | 0 <= i < |shares| :: shares[i].name in out
    ensures |r| == |shares| && forall i | 0 <= i < |r| :: r[i] == out[shares[i].name]
  {
    if shares == [] then [] else [out[shares[0].name]] + Lookup(shares[1..], out)
  }

  /** One worker for each streaming slice, plus what the request-shaped ones got. */
  lemma {:induction false} LookupSum(shares: seq<Share>, out: map<string, nat>)
    requires forall i | 0 <= i < |shares| :: shares[i].name in out
    requires forall i | 0 <= i < |shares| && Streaming(shares[i].name) :: out[shares[i].name] == 1
    requires forall i | 0 <= i < |Requests(shares)| :: Requests(shares)[i].name in out
    ensures Sum(Lookup(shares, out)) == |shares| - |Requests(shares)| + Sum(Lookup(Requests(shares), out))
  {
    if shares != [] {
      var tail := shares[1..];
      assert forall i | 0 <= i < |tail| :: tail[i] == shares[i + 1];
      if !Streaming(shares[0].name) {
        assert Requests(shares)[1..] == Requests(tail);
        assert forall i | 0 <= i < |Requests(tail)| :: Requests(tail)[i] == Requests(shares)[i + 1];
      } else {
        assert Requests(shares) == Requests(tail);
      }
      LookupSum(tail, out);
    }
  }

  /** What is handed out in all. */
  function Total(budget: nat, shares: seq<Share>): nat
    requires budget >= |shares|
  {
    if Sum(Weights(Requests(shares))) > 0 then budget else |shares|
  }

  /** `alloc` is the largest-remainder split of `left` by weight, levelled to a floor of
      one. */
  ghost predicate FairSplit(left: nat, ws: seq<nat>, alloc: seq<nat>)
    requires ws != []
  {
    exists rounded :: RoundedSplit(left, ws, rounded) && Leveled(rounded, alloc)
  }

  /** Share `extra` workers, on top of one each, by weight. */
  method SplitByWeight(extra: nat, ws: seq<nat>) returns (alloc: seq<nat>)
    requires ws != []
    ensures |alloc| == |ws| && forall i | 0 <= i < |alloc| :: alloc[i] >= 1
    ensures Sum(alloc) == |ws| + if Sum(ws) > 0 then extra else 0
    ensures FairSplit(extra + |ws|, ws, alloc)
  {
    var rounded := LargestRemainder(extra + |ws|, ws);
    alloc := FloorAtOne(rounded);
    LeveledFloor(rounded, alloc);
    LeveledIsFair(extra + |ws|, ws, rounded, alloc);
  }

  lemma {:induction false} LeveledIsFair(left: nat, ws: seq<nat>, rounded: seq<nat>, alloc: seq<nat>)
    requires ws != [] && RoundedSplit(left, ws, rounded) && Leveled(rounded, alloc)
    ensures FairSplit(left, ws, alloc)
  {
  }

  /** The workers of the request-shaped slices, in order. */
  function RequestWorkers(shares: seq<Share>, workers: seq<nat>): seq<nat>
    requires |workers| == |shares|
  {
    if shares == [] then []
    else
      var tail := RequestWorkers(shares[1..], workers[1..]);
      if Streaming(shares[0].name) then tail else [workers[0]] + tail
  }

  lemma {:induction false} RequestWorkersAre(shares: seq<Share>, out: map<string, nat>)
    requires forall i | 0 <= i < |shares| :: shares[i].name in out
    requires forall i | 0 <= i < |Requests(shares)| :: Requests(shares)[i].name in out
    ensures RequestWorkers(shares, Lookup(shares, out)) == Lookup(Requests(shares), out)
  {
    if shares != [] {
      var tail := shares[1..];
      assert forall i | 0 <= i < |tail| :: tail[i] == shares[i + 1];
      assert Lookup(shares, out)[1..] == Lookup(tail, out);
      if !Streaming(shares[0].name) {
        assert Requests(shares)[1..] == Requests(tail);
        assert forall i | 0 <= i < |Requests(tail)| :: Requests(tail)[i] == Requests(shares)[i + 1];
      } else {
        assert Requests(shares) == Requests(tail);
      }
      RequestWorkersAre(tail, out);
    }
  }

  /** The floor: one worker for every slice. */
  method Ones(shares: seq<Share>) returns (out: map<string, nat>)
    ensures forall i | 0 <= i < |shares| :: shares[i].name in out
    ensures forall n | n in out :: out[n] == 1
  {
    out := map[];
    for i := 0 to |shares|
      invariant forall j | 0 <= j < i :: shares[j].name in out
      invariant forall n | n in out :: out[n] == 1
    {
      out := out[shares[i].name := 1];
    }
  }

  lemma {:induction false} RequestsInTable(shares: seq<Share>, out: map<string, nat>)
    requires forall i | 0 <= i < |shares| :: shares[i].name in out
    ensures forall i | 0 <= i < |Requests(shares)| :: Requests(shares)[i].name in out
    ensures DistinctNames(shares) ==> DistinctNames(Requests(shares))
  {
    RequestsOf(shares);
    assert forall i | 0 <= i < |Requests(shares)| :: Requests(shares)[i] in Requests(shares);
  }

  /** Overwrite the request-shaped slices' entries. */
  method Update(ghost shares: seq<Share>, was: map<string, nat>, rest: seq<Share>, alloc: seq<nat>)
    returns (out: map<string, nat>)
    requires DistinctNames(rest) && |alloc| == |rest| && rest == Requests(shares)
    requires forall i | 0 <= i < |shares| :: shares[i].name in was
    requires forall n | n in was :: was[n] == 1
    requires forall i | 0 <= i < |alloc| :: alloc[i] >= 1
    ensures forall i | 0 <= i < |shares| :: shares[i].name in out && out[shares[i].name] >= 1
    ensures forall i | 0 <= i < |shares| && Streaming(shares[i].name) :: out[shares[i].name] == 1
    ensures forall i | 0 <= i < |rest| :: rest[i].name in out && out[rest[i].name] == alloc[i]
  {
    RequestsOf(shares);
    out := was;
    for k := 0 to |rest|
      invariant forall n | n in was :: n in out
      invariant forall n | n in out :: out[n] >= 1 && (Streaming(n) ==> out[n] == 1)
      invariant forall i | 0 <= i < k :: rest[i].name in out && out[rest[i].name] == alloc[i]
    {
      assert rest[k] in rest;
      out := out[rest[k].name := alloc[k]];
    }
  }

  /** Every slice has a worker, a streaming one just one. */
  ghost predicate Covers(shares: seq<Share>, workers: seq<nat>)
    requires |workers| == |shares|
  {
    forall i | 0 <= i < |shares| :: workers[i] >= 1 && (Streaming(shares[i].name) ==> workers[i] == 1)
  }

  /** One worker each. */
  method FloorOnly(shares: seq<Share>) returns (workers: seq<nat>)
    ensures |workers| == |shares| && Covers(shares, workers) && Sum(workers) == |shares|
  {
    var out := Ones(shares);
    workers := Lookup(shares, out);
    SumAtLeast(workers, 1);
    SumAtMost(workers, 1);
  }

  /** One worker each, and what the request-shaped slices were allocated. */
  method Install(shares: seq<Share>, alloc: seq<nat>) returns (workers: seq<nat>)
    requires DistinctNames(shares) && |alloc| == |Requests(shares)| && forall i | 0 <= i < |alloc| :: alloc[i] >= 1
    ensures |workers| == |shares| && Covers(shares, workers) && RequestWorkers(shares, workers) == alloc
    ensures Sum(workers) == |shares| - |alloc| + Sum(alloc)
  {
    var rest := Requests(shares);
    var out := Ones(shares);
    RequestsInTable(shares, out);
    out := Update(shares, out, rest, alloc);
    assert Lookup(rest, out) == alloc;
    LookupSum(shares, out);
    RequestWorkersAre(shares, out);
    workers := Lookup(shares, out);
  }

  /** Beyond one worker per slice, the request-shaped ones share by largest remainder. */
  ghost predicate FairlySplit(budget: nat, shares: seq<Share>, workers: seq<nat>)
    requires budget >= |shares| == |workers|
  {
    var rest := Requests(shares);
    rest != [] && budget > |shares| ==>
      FairSplit(budget - |shares| + |rest|, Weights(rest), RequestWorkers(shares, workers))
  }

  /** split_mix: refused exactly when the budget is below the number of slices; otherwise
      every slice gets at least one worker, a streaming slice exactly one, the total is
      the budget whenever some request-shaped slice has weight, and when there is more
      than one worker per slice the request-shaped ones share it by largest remainder. */
  method Split(budget: nat, shares: seq<Share>) returns (r: Option<seq<nat>>)
    requires DistinctNames(shares)
    ensures r.None? <==> budget < |shares|
    ensures r.Some? ==> |r.value| == |shares| && Sum(r.value) == Total(budget, shares)
    ensures r.Some? ==> Covers(shares, r.value)
    ensures r.Some? ==> FairlySplit(budget, shares, r.value)
  {
    if budget < |shares| {
      return None;
    }
    var rest, extra := Requests(shares), budget - |shares|;
    var workers: seq<nat>;
    if rest != [] && extra > 0 {
      var alloc := SplitByWeight(extra, Weights(rest));
      workers := Install(shares, alloc);
    } else {
      workers := FloorOnly(shares);
    }
    return Some(workers);
  }

  /** The promise "the total is exactly the budget" holds exactly when some request-shaped
      slice has weight or there is nothing beyond one worker per slice; in particular it
      holds for the positive weights a parsed mix has, as soon as one slice is
      request-shaped. */
  lemma {:induction false} TotalIsBudgetIff(budget: nat, shares: seq<Share>)
    requires budget >= |shares|
    ensures Total(budget, shares) <= budget
    ensures Total(budget, shares) == budget
            <==> budget == |shares| || exists x :: x in shares && !Streaming(x.name) && x.weight > 0
  {
    var rest := Requests(shares);
    RequestsOf(shares);
    if Sum(Weights(rest)) == 0 {
      NoWeights(0, Weights(rest));
      forall x | x in rest
        ensures x.weight == 0
      {
        var i :| 0 <= i < |rest| && rest[i] == x;
        assert Weights(rest)[i] == 0;
      }
    } else {
      SomeWeight(rest);
    }
  }

  /** With no weight at all the workers beyond the floor are never handed out. */
  lemma {:induction false} ZeroWeightsFallShort()
    ensures Total(3, [Share("ws", 0)]) == 1
  {
    var shares := [Share("ws", 0)];
    assert shares[1..] == [];
    assert Requests(shares) == shares;
    assert Weights(shares) == [0];
    assert Sum([0]) == 0;
  }

  lemma {:induction false} SomeWeight(shares: seq<Share>)
    requires Sum(Weights(shares)) > 0
    ensures exists x :: x in shares && x.weight > 0
  {
    if shares[0].weight > 0 {
      assert shares[0] in shares;
    } else {
      assert Weights(shares)[1..] == Weights(shares[1..]);
      SomeWeight(shares[1..]);
      var x :| x in shares[1..] && x.weight > 0;
      assert x in shares;
    }
  }
}
