/** The nearest-rank 95th percentile that both acceptance paths of a timing campaign use. */
module NearestRank {

  /** ceil(19 n / 20), the one-based rank of the 95th percentile among n values. */
  function Rank(n: nat): nat {
    (19 * n + 19) / 20
  }

  function Insert(x: real, s: seq<real>): (r: seq<real>)
    ensures |r| == |s| + 1
  {
    if s == [] then [x]
    else if x <= s[0] then [x] + s
    else [s[0]] + Insert(x, s[1..])
  }

  function Sort(s: seq<real>): (r: seq<real>)
    ensures |r| == |s|
  {
    if s == [] then [] else Insert(s[0], Sort(s[1..]))
  }

  /** Both callers pass a full window; an empty one is an error. */
  function P95(durations: seq<real>): real
    requires durations != []
  {
    RankInRange(|durations|);
    Sort(durations)[Rank(|durations|) - 1]
  }

  /** How many of the values lie strictly below x. */
  function CountBelow(s: seq<real>, x: real): nat {
    if s == [] then 0 else (if s[0] < x then 1 else 0) + CountBelow(s[1..], x)
  }

  predicate Sorted(s: seq<real>) {
    forall i, j | 0 <= i < j < |s| :: s[i] <= s[j]
  }

  lemma RankInRange(n: nat)
    requires n > 0
    ensures 1 <= Rank(n) <= n
  {
  }

  lemma InsertKeepsSorted(x: real, s: seq<real>)
    requires Sorted(s)
    ensures Sorted(Insert(x, s))
    ensures forall y :: y in Insert(x, s) <==> y == x || y in s
  {
    if s != [] && x > s[0] {
      InsertKeepsSorted(x, s[1..]);
      assert s == [s[0]] + s[1..];
      var t := Insert(x, s[1..]);
      assert forall i | 0 <= i < |t| :: t[i] in t;
    }
  }

  lemma SortKeepsElements(s: seq<real>)
    ensures Sorted(Sort(s))
    ensures forall y :: y in Sort(s) <==> y in s
  {
    if s != [] {
      SortKeepsElements(s[1..]);
      InsertKeepsSorted(s[0], Sort(s[1..]));
      assert s == [s[0]] + s[1..];
    }
  }

  lemma {:induction false} InsertKeepsCount(x: real, s: seq<real>, b: real)
    ensures CountBelow(Insert(x, s), b) == CountBelow(s, b) + if x < b then 1 else 0
  {
    if s == [] {
    } else if x <= s[0] {
      assert ([x] + s)[1..] == s;
    } else {
      InsertKeepsCount(x, s[1..], b);
      assert ([s[0]] + Insert(x, s[1..]))[1..] == Insert(x, s[1..]);
    }
  }

  lemma {:induction false} SortKeepsCount(s: seq<real>, b: real)
    ensures CountBelow(Sort(s), b) == CountBelow(s, b)
  {
    if s != [] {
      SortKeepsCount(s[1..], b);
      InsertKeepsCount(s[0], Sort(s[1..]), b);
    }
  }

  /** In a sorted sequence the values below x are a prefix, so the count locates them. */
  lemma {:induction false} SortedCountIsPrefix(s: seq<real>, x: real, r: nat)
    requires Sorted(s) && 1 <= r <= |s|
    ensures s[r - 1] < x <==> CountBelow(s, x) >= r
  {
    if s[0] >= x {
      NothingBelow(s, x);
    } else if r > 1 {
      SortedCountIsPrefix(s[1..], x, r - 1);
    }
  }

  lemma {:induction false} NothingBelow(s: seq<real>, x: real)
    requires forall i | 0 <= i < |s| :: x <= s[i]
    ensures CountBelow(s, x) == 0
  {
    if s != [] {
      NothingBelow(s[1..], x);
    }
  }

  lemma CountDecides(sorted: seq<real>, s: seq<real>, value: real, x: real, r: nat)
    requires Sorted(sorted) && 1 <= r <= |sorted| && value == sorted[r - 1]
    requires CountBelow(sorted, x) == CountBelow(s, x)
    ensures value < x <==> CountBelow(s, x) >= r
  {
    SortedCountIsPrefix(sorted, x, r);
  }

  lemma P95IsSortedValue(durations: seq<real>)
    requires durations != []
    ensures Sorted(Sort(durations))
    ensures 1 <= Rank(|durations|) <= |durations|
    ensures P95(durations) == Sort(durations)[Rank(|durations|) - 1]
  {
    SortKeepsElements(durations);
    RankInRange(|durations|);
  }

  /** The percentile is below x exactly when at least ceil(0.95 n) of the durations are. */
  lemma P95BelowIffEnoughBelow(durations: seq<real>, x: real)
    requires durations != []
    ensures P95(durations) < x <==> CountBelow(durations, x) >= Rank(|durations|)
  {
    P95IsSortedValue(durations);
    SortKeepsCount(durations, x);
    CountDecides(Sort(durations), durations, P95(durations), x, Rank(|durations|));
  }

  lemma {:induction false} CountBelowConcat(a: seq<real>, b: seq<real>, x: real)
    ensures CountBelow(a + b, x) == CountBelow(a, x) + CountBelow(b, x)
  {
    if a == [] {
      assert a + b == b;
    } else {
      assert (a + b)[1..] == a[1..] + b;
      CountBelowConcat(a[1..], b, x);
    }
  }

  lemma {:induction false} CountBelowPermuted(a: seq<real>, b: seq<real>, x: real)
    requires multiset(a) == multiset(b)
    ensures |a| == |b|
    ensures CountBelow(a, x) == CountBelow(b, x)
  {
    if a == [] {
      assert |multiset(b)| == 0;
    } else {
      assert a[0] in multiset(b);
      var i :| 0 <= i < |b| && b[i] == a[0];
      RemovedKeepsPermutation(a, b, i);
      CountBelowPermuted(a[1..], b[..i] + b[i + 1..], x);
      CountBelowConcat(b[..i], [b[i]] + b[i + 1..], x);
      CountBelowConcat(b[..i], b[i + 1..], x);
    }
  }

  lemma RemovedKeepsPermutation(a: seq<real>, b: seq<real>, i: nat)
    requires a != [] && i < |b| && b[i] == a[0] && multiset(a) == multiset(b)
    ensures multiset(a[1..]) == multiset(b[..i] + b[i + 1..])
    ensures b == b[..i] + ([b[i]] + b[i + 1..])
  {
    assert a == [a[0]] + a[1..];
    assert b == b[..i] + ([b[i]] + b[i + 1..]);
    assert multiset(a[1..]) == multiset(a) - multiset{a[0]};
  }

  /** The percentile depends on the durations recorded, not on their order. */
  lemma P95IgnoresOrder(a: seq<real>, b: seq<real>)
    requires a != [] && multiset(a) == multiset(b)
    ensures b != [] && P95(a) == P95(b)
  {
    CountBelowPermuted(a, b, P95(a));
    CountBelowPermuted(a, b, P95(b));
    P95BelowIffEnoughBelow(a, P95(b));
    P95BelowIffEnoughBelow(b, P95(a));
    P95BelowIffEnoughBelow(a, P95(a));
    P95BelowIffEnoughBelow(b, P95(b));
  }

  /** For a full campaign window: below the limit exactly when at most one run reaches it. */
  lemma TwentyRunsAllowOneSlow(durations: seq<real>, x: real)
    requires |durations| == 20
    ensures P95(durations) < x <==> |durations| - CountBelow(durations, x) <= 1
  {
    P95BelowIffEnoughBelow(durations, x);
  }
}
