/** The binomial distribution behind the order-statistic ranks of host_admission.py. */
module Binomial {

  /** The number of k-element subsets of an n-element set, by Pascal's rule. */
  function Choose(n: nat, k: nat): nat {
    if k == 0 then 1
    else if n == 0 then 0
    else Choose(n - 1, k - 1) + Choose(n - 1, k)
  }

  function Pow(x: real, n: nat): real {
    if n == 0 then 1.0 else x * Pow(x, n - 1)
  }

  /** Probability of exactly k successes in n independent trials of probability p. */
  function Pmf(n: nat, p: real, k: nat): real
    requires k <= n
  {
    Choose(n, k) as real * (Pow(p, k) * Pow(1.0 - p, n - k))
  }

  /** The whole distribution, indexed by the number of successes. */
  function Masses(n: nat, p: real): (s: seq<real>)
    ensures |s| == n + 1
  {
    seq(n + 1, k requires 0 <= k <= n => Pmf(n, p, k))
  }

  /** Left-to-right sum, the order in which the source accumulates. */
  function Sum(s: seq<real>): real {
    if s == [] then 0.0 else Sum(s[..|s| - 1]) + s[|s| - 1]
  }

  lemma SumSnoc(s: seq<real>, k: nat)
    requires k < |s|
    ensures Sum(s[..k + 1]) == Sum(s[..k]) + s[k]
  {
    assert s[..k + 1][..k] == s[..k];
  }

  lemma {:induction false} SumScale(s: seq<real>, t: seq<real>, c: real)
    requires |s| == |t| && forall k :: 0 <= k < |s| ==> s[k] == c * t[k]
    ensures Sum(s) == c * Sum(t)
  {
    if s != [] {
      SumScale(s[..|s| - 1], t[..|s| - 1], c);
      Distribute(c, Sum(t[..|s| - 1]), t[|s| - 1]);
    }
  }

  lemma Distribute(x: real, a: real, b: real)
    ensures x * (a + b) == x * a + x * b
  {}

  // ---- binomial coefficients ----

  lemma {:induction false} ChooseAboveIsZero(n: nat, k: nat)
    requires k > n
    ensures Choose(n, k) == 0
  {
    if n > 0 {
      ChooseAboveIsZero(n - 1, k - 1);
      ChooseAboveIsZero(n - 1, k);
    }
  }

  lemma {:induction false} ChoosePositive(n: nat, k: nat)
    requires k <= n
    ensures Choose(n, k) > 0
  {
    if k > 0 { ChoosePositive(n - 1, k - 1); }
  }

  lemma {:induction false} ChooseDiagonal(n: nat)
    ensures Choose(n, n) == 1
  {
    if n > 0 {
      ChooseDiagonal(n - 1);
      ChooseAboveIsZero(n - 1, n);
    }
  }

  /** Neighbouring binomial coefficients satisfy C(n,k+1)(k+1) = C(n,k)(n-k). */
  lemma {:induction false} ChooseRatio(n: nat, k: nat)
    requires k <= n
    ensures Choose(n, k + 1) * (k + 1) == Choose(n, k) * (n - k)
  {
    if k == n {
      ChooseAboveIsZero(n, n + 1);
    } else if k == 0 {
      ChooseRatio(n - 1, 0);
    } else {
      ChooseRatio(n - 1, k);
      ChooseRatio(n - 1, k - 1);
      RatioStep(Choose(n - 1, k - 1), Choose(n - 1, k), Choose(n - 1, k + 1), n, k);
    }
  }

  lemma RatioStep(a: int, b: int, c: int, n: int, k: int)
    requires c * (k + 1) == b * (n - 1 - k)
    requires b * k == a * (n - k)
    ensures (b + c) * (k + 1) == (a + b) * (n - k)
  {}

  lemma RealProduct(a: int, b: int, c: int, d: int)
    requires a * b == c * d
    ensures a as real * b as real == c as real * d as real
  {}

  // ---- one mass against its neighbour ----

  lemma {:induction false} PowPositive(x: real, n: nat)
    requires x > 0.0
    ensures Pow(x, n) > 0.0
  {
    if n > 0 { PowPositive(x, n - 1); }
  }

  lemma PmfPositive(n: nat, p: real, k: nat)
    requires k <= n && 0.0 < p < 1.0
    ensures Pmf(n, p, k) > 0.0
  {
    ChoosePositive(n, k);
    PowPositive(p, k);
    PowPositive(1.0 - p, n - k);
    ProductPositive(Pow(p, k), Pow(1.0 - p, n - k));
    ProductPositive(Choose(n, k) as real, Pow(p, k) * Pow(1.0 - p, n - k));
  }

  lemma ProductPositive(x: real, y: real)
    requires x > 0.0 && y > 0.0
    ensures x * y > 0.0
  {}

  /** The ratio recurrence the source walks in both directions. */
  lemma PmfRatio(n: nat, p: real, k: nat)
    requires k < n
    ensures Pmf(n, p, k + 1) * ((k + 1) as real * (1.0 - p)) == Pmf(n, p, k) * ((n - k) as real * p)
  {
    hide Choose, Pow;
    ChooseRatio(n, k);
    PowStep(p, k);
    PowStep(1.0 - p, n - k - 1);
    RealProduct(Choose(n, k + 1), k + 1, Choose(n, k), n - k);
    RatioProduct(Choose(n, k) as real, Choose(n, k + 1) as real, (n - k) as real, (k + 1) as real,
                 Pow(p, k), Pow(p, k + 1), Pow(1.0 - p, n - k - 1), Pow(1.0 - p, n - k), p, 1.0 - p);
  }

  lemma PowStep(x: real, n: nat)
    ensures Pow(x, n + 1) == x * Pow(x, n)
  {}

  lemma RatioProduct(c0: real, c1: real, d0: real, d1: real, u: real, pu: real, v: real, qv: real, p: real, q: real)
    requires c1 * d1 == c0 * d0
    requires pu == p * u && qv == q * v
    ensures c1 * (pu * v) * (d1 * q) == c0 * (u * qv) * (d0 * p)
  {}

  /** Pascal's rule on the masses: condition on one of the n + 1 trials. */
  lemma PmfPascal(n: nat, p: real, k: nat)
    requires 0 < k <= n
    ensures Pmf(n + 1, p, k) == p * Pmf(n, p, k - 1) + (1.0 - p) * Pmf(n, p, k)
  {}

  lemma PmfEdges(n: nat, p: real)
    ensures Pmf(n + 1, p, 0) == (1.0 - p) * Pmf(n, p, 0)
    ensures Pmf(n + 1, p, n + 1) == p * Pmf(n, p, n)
  {
    ChooseDiagonal(n);
    ChooseDiagonal(n + 1);
  }

  // ---- the binomial theorem ----

  /** The average of a and b with weights p and 1 - p. */
  function Mix(p: real, a: real, b: real): real {
    p * a + (1.0 - p) * b
  }

  lemma MixAdds(p: real, a: real, b: real, a': real, b': real)
    ensures Mix(p, a, b) + Mix(p, a', b') == Mix(p, a + a', b + b')
  {}

  lemma MixSame(p: real, a: real)
    ensures Mix(p, a, a) == a
  {}

  /** Each entry of g mixes f with its own shift by one. */
  ghost predicate Mixed(f: seq<real>, g: seq<real>, p: real) {
    && |g| == |f| + 1
    && forall k :: 0 <= k < |g| ==> g[k] == Mix(p, At(f, k - 1), At(f, k))
  }

  ghost function At(f: seq<real>, k: int): real {
    if 0 <= k < |f| then f[k] else 0.0
  }

  /** Mixing a sequence with its shift mixes its partial sums the same way. */
  lemma {:induction false} MixedSum(f: seq<real>, g: seq<real>, p: real, m: nat)
    requires Mixed(f, g, p) && m <= |g|
    ensures Sum(g[..m]) == Mix(p, Sum(f[..Clip(f, m - 1)]), Sum(f[..Clip(f, m)]))
  {
    if m > 0 {
      MixedSum(f, g, p, m - 1);
      SumSnoc(g, m - 1);
      ClipSum(f, m - 1);
      ClipSum(f, m - 2);
      MixAdds(p, Sum(f[..Clip(f, m - 2)]), Sum(f[..Clip(f, m - 1)]), At(f, m - 2), At(f, m - 1));
    } else {
      assert Mix(p, 0.0, 0.0) == 0.0;
    }
  }

  ghost function Clip(f: seq<real>, m: int): (k: nat)
    ensures k <= |f|
  {
    if m < 0 then 0 else if m > |f| then |f| else m
  }

  lemma ClipSum(f: seq<real>, m: int)
    ensures Sum(f[..Clip(f, m + 1)]) == Sum(f[..Clip(f, m)]) + At(f, m)
  {
    if 0 <= m < |f| { SumSnoc(f, m); }
  }

  /** The binomial theorem for p + (1 - p): all masses together are exactly one. */
  lemma {:induction false} MassesSumToOne(n: nat, p: real)
    ensures Sum(Masses(n, p)) == 1.0
  {
    if n == 0 {
      assert Masses(0, p) == [1.0];
    } else {
      var f, g := Masses(n - 1, p), Masses(n, p);
      MassesSumToOne(n - 1, p);
      forall k | 0 <= k < |g| ensures g[k] == Mix(p, At(f, k - 1), At(f, k)) {
        MassPascal(n - 1, p, k);
      }
      MixedSum(f, g, p, n + 1);
      assert f[..n] == f && g[..n + 1] == g;
      MixSame(p, 1.0);
    }
  }

  lemma MassPascal(n: nat, p: real, k: nat)
    requires k <= n + 1
    ensures Masses(n + 1, p)[k] == Mix(p, At(Masses(n, p), k - 1), At(Masses(n, p), k))
  {
    hide Pmf;
    if k == 0 || k == n + 1 { MassEdge(n, p); } else { MassInner(n, p, k); }
  }

  lemma MassEdge(n: nat, p: real)
    ensures Pmf(n + 1, p, 0) == Mix(p, 0.0, Pmf(n, p, 0))
    ensures Pmf(n + 1, p, n + 1) == Mix(p, Pmf(n, p, n), 0.0)
  {
    hide Pmf;
    PmfEdges(n, p);
  }

  lemma MassInner(n: nat, p: real, k: nat)
    requires 0 < k <= n
    ensures Pmf(n + 1, p, k) == Mix(p, Pmf(n, p, k - 1), Pmf(n, p, k))
  {
    hide Pmf;
    PmfPascal(n, p, k);
  }
}
