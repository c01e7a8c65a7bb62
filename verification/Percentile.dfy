/** Nearest-rank percentile and median of latencies, in exact arithmetic. */
module Percentile {
  import opened Collections

  function Insert(x: real, s: seq<real>): seq<real> {
    if s == [] || x <= s[0] then [x] + s else [s[0]] + Insert(x, s[1..])
  }

  /** sorted(values). */
  function Sorted(values: seq<real>): seq<real> {
    if values == [] then [] else Insert(values[0], Sorted(values[1..]))
  }

  predicate Ascending(s: seq<real>) {
    |s| < 2 || (s[0] <= s[1] && Ascending(s[1..]))
  }

  lemma {:induction false} AscendingPairs(s: seq<real>, i: nat, j: nat)
    requires Ascending(s) && i <= j < |s|
    ensures s[i] <= s[j]
  {
    if i > 0 {
      AscendingPairs(s[1..], i - 1, j - 1);
    } else if j > 0 {
      AscendingPairs(s[1..], 0, j - 1);
    }
  }

  lemma HeadAndTail(s: seq<real>)
    requires s != []
    ensures multiset(s) == multiset{s[0]} + multiset(s[1..])
  {
    assert s == [s[0]] + s[1..];
  }

  lemma {:induction false} InsertInserts(x: real, s: seq<real>)
    requires Ascending(s)
    ensures Ascending(Insert(x, s)) && multiset(Insert(x, s)) == multiset{x} + multiset(s)
  {
    if s != [] && x > s[0] {
      InsertInserts(x, s[1..]);
      HeadAndTail(s);
      HeadAndTail(Insert(x, s));
      assert Insert(x, s)[1..] == Insert(x, s[1..]);
    } else {
      HeadAndTail([x] + s);
      assert ([x] + s)[1..] == s;
    }
  }

  lemma {:induction false} SortedSorts(values: seq<real>)
    ensures Ascending(Sorted(values)) && multiset(Sorted(values)) == multiset(values)
    ensures |Sorted(values)| == |values|
  {
    if values != [] {
      SortedSorts(values[1..]);
      InsertInserts(values[0], Sorted(values[1..]));
      HeadAndTail(values);
    }
    assert |multiset(Sorted(values))| == |Sorted(values)| && |multiset(values)| == |values|;
  }

  lemma HeadIsLeast(s: seq<real>, x: real)
    requires Ascending(s) && x in multiset(s)
    ensures s[0] <= x
  {
    assert x in s;
    var k :| 0 <= k < |s| && s[k] == x;
    AscendingPairs(s, 0, k);
  }

  lemma HeadIsFirst(a: seq<real>, b: seq<real>)
    requires Ascending(a) && Ascending(b) && multiset(a) == multiset(b) && a != [] && b != []
    ensures a[0] == b[0]
  {
    assert a[0] in multiset(a) && b[0] in multiset(b);
    HeadIsLeast(a, b[0]);
    HeadIsLeast(b, a[0]);
  }

  lemma TailIsRest(s: seq<real>)
    requires s != []
    ensures multiset(s[1..]) == multiset(s) - multiset{s[0]}
  {
    HeadAndTail(s);
  }

  /** Two ascending sequences of the same values are the same sequence. */
  lemma {:induction false} AscendingIsUnique(a: seq<real>, b: seq<real>)
    requires Ascending(a) && Ascending(b) && multiset(a) == multiset(b)
    ensures a == b
  {
    assert |multiset(a)| == |a| && |multiset(b)| == |b|;
    if a != [] {
      HeadIsFirst(a, b);
      TailIsRest(a);
      TailIsRest(b);
      AscendingIsUnique(a[1..], b[1..]);
      assert a == [a[0]] + a[1..] && b == [b[0]] + b[1..];
    }
  }

  /** int((n - 1) * 0.95 + 0.5). */
  function Rank(n: nat): int
    requires n > 0
  {
    ((n - 1) as real * 0.95 + 0.5).Floor
  }

  function Clamp(n: nat, index: int): int
    requires n > 0
  {
    if index > n - 1 then n - 1 else if index < 0 then 0 else index
  }

  /** The clamp of the index never does anything. */
  lemma RankIsInRange(n: nat)
    requires n > 0
    ensures 0 <= Rank(n) < n && Clamp(n, Rank(n)) == Rank(n)
    ensures n / 2 <= Rank(n)
  {
    var x := (n - 1) as real * 0.95 + 0.5;
    assert x < n as real && x >= 0.5;
    assert 2.0 * x >= n as real - 1.0;
    if n >= 2 {
      assert 2.0 * x >= n as real;
    }
  }

  function Percentile95(values: seq<real>): real {
    if values == [] then 0.0
    else
      SortedSorts(values);
      var ordered := Sorted(values);
      ordered[Clamp(|ordered|, Rank(|ordered|))]
  }

  function Median(values: seq<real>): real
    requires values != []
  {
    SortedSorts(values);
    var ordered, n := Sorted(values), |values|;
    if n % 2 == 1 then ordered[n / 2] else (ordered[n / 2 - 1] + ordered[n / 2]) / 2.0
  }

  /** How many values are at most x, and how many at least x. */
  function AtMost(values: seq<real>, x: real): nat {
    if values == [] then 0 else (if values[0] <= x then 1 else 0) + AtMost(values[1..], x)
  }

  function AtLeast(values: seq<real>, x: real): nat {
    if values == [] then 0 else (if values[0] >= x then 1 else 0) + AtLeast(values[1..], x)
  }

  lemma {:induction false} CountOfConcat(a: seq<real>, b: seq<real>, x: real)
    ensures AtMost(a + b, x) == AtMost(a, x) + AtMost(b, x)
    ensures AtLeast(a + b, x) == AtLeast(a, x) + AtLeast(b, x)
  {
    if a == [] {
      assert a + b == b;
    } else {
      CountOfConcat(a[1..], b, x);
      assert (a + b)[1..] == a[1..] + b;
    }
  }

  lemma SameSize(a: seq<real>, b: seq<real>)
    requires multiset(a) == multiset(b)
    ensures |a| == |b|
  {
    assert |multiset(a)| == |a| && |multiset(b)| == |b|;
  }

  lemma CountsWithout(s: seq<real>, v: real, x: real) returns (rest: seq<real>)
    requires v in s
    ensures |rest| == |s| - 1 && multiset(rest) == multiset(s) - multiset{v}
    ensures AtMost(s, x) == AtMost(rest, x) + if v <= x then 1 else 0
    ensures AtLeast(s, x) == AtLeast(rest, x) + if v >= x then 1 else 0
  {
    var k :| 0 <= k < |s| && s[k] == v;
    rest := s[..k] + s[k + 1..];
    WithoutOne(s, k);
    CountOfConcat(s[..k], s[k..], x);
    CountOfConcat(s[..k], s[k + 1..], x);
    assert s == s[..k] + s[k..] && s[k..][1..] == s[k + 1..];
  }

  /** The number of values satisfying a bound does not depend on their order. */
  lemma {:induction false} CountsIgnoreOrder(a: seq<real>, b: seq<real>, x: real)
    requires multiset(a) == multiset(b)
    ensures AtMost(a, x) == AtMost(b, x) && AtLeast(a, x) == AtLeast(b, x)
    decreases |a|
  {
    SameSize(a, b);
    if a == [] {
      assert b == a;
    } else {
      assert a[0] in multiset(b);
      var fewer := CountsWithout(a, a[0], x);
      var rest := CountsWithout(b, a[0], x);
      CountsIgnoreOrder(fewer, rest, x);
    }
  }

  lemma {:induction false} AllCounted(s: seq<real>, x: real)
    ensures (forall i :: 0 <= i < |s| ==> s[i] <= x) ==> AtMost(s, x) == |s|
    ensures (forall i :: 0 <= i < |s| ==> s[i] >= x) ==> AtLeast(s, x) == |s|
  {
    if s != [] {
      AllCounted(s[1..], x);
    }
  }

  /** In an ascending sequence k + 1 values are at most the k-th and n - k at least it. */
  lemma LowerCount(s: seq<real>, k: nat)
    requires Ascending(s) && k < |s|
    ensures AtMost(s, s[k]) >= k + 1
  {
    var low := s[..k + 1];
    forall i | 0 <= i < |low| ensures low[i] <= s[k] { AscendingPairs(s, i, k); }
    AllCounted(low, s[k]);
    CountOfConcat(low, s[k + 1..], s[k]);
    assert s == low + s[k + 1..];
  }

  lemma UpperCount(s: seq<real>, k: nat)
    requires Ascending(s) && k < |s|
    ensures AtLeast(s, s[k]) >= |s| - k
  {
    var high := s[k..];
    forall i | 0 <= i < |high| ensures high[i] >= s[k] { AscendingPairs(s, k, k + i); }
    AllCounted(high, s[k]);
    CountOfConcat(s[..k], high, s[k]);
    assert s == s[..k] + high;
  }

  /** The value stands at position k of the values in order: it is one of them, and the counts on both sides fit. */
  predicate AtPosition(values: seq<real>, v: real, k: nat) {
    v in values && AtMost(values, v) >= k + 1 && AtLeast(values, v) >= |values| - k
  }

  lemma {:induction false} CountsAreDisjoint(values: seq<real>, low: real, high: real)
    requires low < high
    ensures AtMost(values, low) + AtLeast(values, high) <= |values|
  {
    if values != [] {
      CountsAreDisjoint(values[1..], low, high);
    }
  }

  /** No two different values stand at one position. */
  lemma PositionIsUnique(values: seq<real>, v: real, w: real, k: nat)
    requires AtPosition(values, v, k) && AtPosition(values, w, k)
    ensures v == w
  {
    if v < w {
      CountsAreDisjoint(values, v, w);
    } else if w < v {
      CountsAreDisjoint(values, w, v);
    }
  }

  lemma OrderedPosition(values: seq<real>, k: nat)
    requires k < |values|
    ensures |Sorted(values)| == |values| && AtPosition(values, Sorted(values)[k], k)
  {
    SortedSorts(values);
    var s := Sorted(values);
    assert s[k] in multiset(s);
    LowerCount(s, k);
    UpperCount(s, k);
    CountsIgnoreOrder(s, values, s[k]);
  }

  /**
   The value returned stands at the position nearest to 95 percent of the way, counting
   from zero: 0.95 (n - 1), rounded half up. That fixes it.
   */
  lemma PercentileIsNearestRank(values: seq<real>) returns (k: nat)
    requires values != []
    ensures k as real <= 0.95 * (|values| - 1) as real + 0.5 < k as real + 1.0
    ensures AtPosition(values, Percentile95(values), k)
  {
    SortedSorts(values);
    RankIsInRange(|values|);
    k := Rank(|values|);
    OrderedPosition(values, k);
  }

  /** In counts: more than 0.95 (n - 1) + 0.5 values are at most it, at least 0.05 (n - 1) + 0.5 are at least it. */
  lemma PercentileCounts(values: seq<real>)
    requires values != []
    ensures var p, n := Percentile95(values), |values|;
            && p in values
            && AtMost(values, p) as real > 0.95 * (n - 1) as real + 0.5
            && AtLeast(values, p) as real >= 0.05 * (n - 1) as real + 0.5
  {
    var k := PercentileIsNearestRank(values);
  }

  /** The median is the mean of the values at the two middle positions, which coincide for an odd number. */
  lemma MedianIsMiddle(values: seq<real>) returns (low: real, high: real)
    requires values != []
    ensures AtPosition(values, low, (|values| - 1) / 2) && AtPosition(values, high, |values| / 2)
    ensures Median(values) == (low + high) / 2.0
  {
    SortedSorts(values);
    var s, n := Sorted(values), |values|;
    low, high := s[(n - 1) / 2], s[n / 2];
    OrderedPosition(values, (n - 1) / 2);
    OrderedPosition(values, n / 2);
  }

  /** Neither figure depends on the order the trials ran in. */
  lemma OrderDoesNotMatter(a: seq<real>, b: seq<real>)
    requires multiset(a) == multiset(b)
    ensures |a| == |b|
    ensures Percentile95(a) == Percentile95(b)
    ensures a != [] ==> Median(a) == Median(b)
  {
    SameSize(a, b);
    SortedSorts(a);
    SortedSorts(b);
    AscendingIsUnique(Sorted(a), Sorted(b));
  }

  lemma MedianIsAtMostPercentile(values: seq<real>)
    requires values != []
    ensures Median(values) <= Percentile95(values)
  {
    SortedSorts(values);
    RankIsInRange(|values|);
    var s, n := Sorted(values), |values|;
    AscendingPairs(s, n / 2, Rank(n));
    if n % 2 == 0 {
      AscendingPairs(s, n / 2 - 1, n / 2);
    }
  }
}
