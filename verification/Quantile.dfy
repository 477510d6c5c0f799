/** Python's `sorted` on integers, and nearest-rank quantiles over it. */
module Quantile {
  import opened Wrappers

  ghost predicate Sorted(s: seq<int>) {
    forall i, j :: 0 <= i < j < |s| ==> s[i] <= s[j]
  }

  function Insert(x: int, s: seq<int>): (r: seq<int>)
    ensures |r| == |s| + 1
  {
    if s == [] || x <= s[0] then [x] + s else [s[0]] + Insert(x, s[1..])
  }

  function Sort(s: seq<int>): (r: seq<int>)
    ensures |r| == |s|
  {
    if s == [] then [] else Insert(s[0], Sort(s[1..]))
  }

  lemma {:induction false} InsertContents(x: int, s: seq<int>)
    ensures multiset(Insert(x, s)) == multiset{x} + multiset(s)
  {
    if s != [] {
      InsertContents(x, s[1..]);
      assert s == [s[0]] + s[1..];
    }
  }

  lemma {:induction false} InsertSorted(x: int, s: seq<int>)
    requires Sorted(s)
    ensures Sorted(Insert(x, s))
  {
    if s != [] && x > s[0] {
      var rest := Insert(x, s[1..]);
      InsertSorted(x, s[1..]);
      InsertBound(s[0], x, s[1..]);
      assert Insert(x, s) == [s[0]] + rest;
    }
  }

  /** A lower bound of the entries and of the new one bounds the result. */
  lemma {:induction false} InsertBound(low: int, x: int, s: seq<int>)
    requires low <= x && forall i :: 0 <= i < |s| ==> low <= s[i]
    ensures forall i :: 0 <= i < |s| + 1 ==> low <= Insert(x, s)[i]
  {
    if s != [] { InsertBound(low, x, s[1..]); }
  }

  /** The sort is correct: ordered, and a rearrangement of its input. */
  lemma {:induction false} SortCorrect(s: seq<int>)
    ensures Sorted(Sort(s)) && multiset(Sort(s)) == multiset(s)
  {
    if s != [] {
      SortCorrect(s[1..]);
      InsertSorted(s[0], Sort(s[1..]));
      InsertContents(s[0], Sort(s[1..]));
      assert s == [s[0]] + s[1..];
    }
  }

  /** How many entries are at most (strict: below) x. */
  function Rank(s: seq<int>, x: int, strict: bool): nat {
    if s == [] then 0
    else (if s[0] < x || (!strict && s[0] == x) then 1 else 0) + Rank(s[1..], x, strict)
  }

  lemma {:induction false} RankInsert(y: int, s: seq<int>, x: int, strict: bool)
    ensures Rank(Insert(y, s), x, strict) == Rank([y], x, strict) + Rank(s, x, strict)
  {
    if s == [] || y <= s[0] {
      assert ([y] + s)[1..] == s;
    } else {
      RankInsert(y, s[1..], x, strict);
      assert ([s[0]] + Insert(y, s[1..]))[1..] == Insert(y, s[1..]);
    }
  }

  lemma {:induction false} RankSort(s: seq<int>, x: int, strict: bool)
    ensures Rank(Sort(s), x, strict) == Rank(s, x, strict)
  {
    if s != [] {
      RankSort(s[1..], x, strict);
      RankInsert(s[0], Sort(s[1..]), x, strict);
    }
  }

  /** In a sorted sequence, exactly the positions up to r can hold values below s[r]. */
  lemma {:induction false} RankInSorted(s: seq<int>, r: nat)
    requires Sorted(s) && r < |s|
    ensures Rank(s, s[r], false) >= r + 1
    ensures Rank(s, s[r], true) <= r
  {
    if r > 0 {
      RankInSorted(s[1..], r - 1);
    } else {
      NoneBelow(s, s[0]);
    }
  }

  lemma {:induction false} NoneBelow(s: seq<int>, x: int)
    requires forall i :: 0 <= i < |s| ==> x <= s[i]
    ensures Rank(s, x, true) == 0
  {
    if s != [] { NoneBelow(s[1..], x); }
  }

  function Ceil(x: real): (r: int)
    ensures x <= r as real < x + 1.0
  {
    -((-x).Floor)
  }

  /** The 1-based nearest rank of quantile q among n values. */
  function NearestRank(q: real, n: nat): (r: nat)
    requires 0.0 < q <= 1.0 && n > 0
    ensures 1 <= r <= n
    ensures q * n as real <= r as real < q * n as real + 1.0
  {
    Scaled(q, n);
    Ceil(q * n as real)
  }

  lemma Scaled(q: real, n: nat)
    requires 0.0 < q <= 1.0 && n > 0
    ensures 0.0 < q * n as real <= n as real
  {}

  lemma RankMonotone(q0: real, q1: real, n: nat)
    requires 0.0 < q0 <= q1 <= 1.0 && n > 0
    ensures NearestRank(q0, n) <= NearestRank(q1, n)
  {}

  function Nearest(values: seq<int>, q: real): Option<int>
    requires 0.0 < q <= 1.0
  {
    if values == [] then None else Some(Sort(values)[NearestRank(q, |values|) - 1])
  }

  /**
   * The reported value is the q-quantile of the unsorted sample: it occurs there, at least a
   * fraction q of the sample is no larger, and less than a fraction q is strictly smaller.
   */
  lemma NearestIsQuantile(values: seq<int>, q: real)
    requires 0.0 < q <= 1.0 && values != []
    ensures var v := Nearest(values, q).value;
            && v in values
            && Rank(values, v, false) as real >= q * |values| as real
            && (Rank(values, v, true) as real) < q * |values| as real
  {
    var r := NearestRank(q, |values|);
    var s := Sort(values);
    SortCorrect(values);
    assert s[r - 1] in multiset(s);
    RankInSorted(s, r - 1);
    RankSort(values, s[r - 1], false);
    RankSort(values, s[r - 1], true);
  }

  /** Quantiles of one sample are ordered like their levels: p50 <= p95 <= p99. */
  lemma NearestMonotone(values: seq<int>, q0: real, q1: real)
    requires 0.0 < q0 <= q1 <= 1.0 && values != []
    ensures Nearest(values, q0).value <= Nearest(values, q1).value
  {
    SortCorrect(values);
    RankMonotone(q0, q1, |values|);
  }
}
