/** tools/bench/host_admission.py: the 95% order-statistic interval of a latency quantile. */
module QuantileInterval {
  import opened Wrappers
  import opened Binomial
  import opened Quantile

  datatype Error = EmptyPopulation

  datatype Interval = Interval(
    count: nat, estimate: int, lower: nat, upper: nat, lo: Option<int>, hi: Option<int>, width: Option<real>)

  /** One step of the ratio recurrence, in the order the source multiplies and divides. */
  function Scale(x: real, up: real, down: real, a: real, b: real): real
    requires down != 0.0 && b != 0.0
  {
    x * up / down * a / b
  }

  lemma ScaleMeets(x: real, up: real, down: real, a: real, b: real, c: real, here: real, there: real)
    requires down > 0.0 && b > 0.0
    requires x * c == here && here * (up * a) == there * (down * b)
    ensures Scale(x, up, down, a, b) * c == there
  {}

  function Times(x: real, y: real): real { x * y }

  function Over(x: real, y: real): real
    requires y != 0.0
  { x / y }

  /** The target sequence obeys the ratio recurrence at k. */
  ghost predicate RatioAt(t: seq<real>, n: nat, p: real, k: nat)
    requires |t| == n + 1 && k < n
  {
    t[k + 1] * ((k + 1) as real * (1.0 - p)) == t[k] * ((n - k) as real * p)
  }

  lemma StepDown(t: seq<real>, n: nat, p: real, k: nat, x: real, c: real)
    requires |t| == n + 1 && 0 < k <= n && 0.0 < p < 1.0 && RatioAt(t, n, p, k - 1)
    requires Times(x, c) == t[k]
    ensures Times(Scale(x, k as real, (n - k + 1) as real, 1.0 - p, p), c) == t[k - 1]
  {}

  lemma StepUp(t: seq<real>, n: nat, p: real, k: nat, x: real, c: real)
    requires |t| == n + 1 && k < n && 0.0 < p < 1.0 && RatioAt(t, n, p, k)
    requires Times(x, c) == t[k]
    ensures Times(Scale(x, (n - k) as real, (k + 1) as real, p, 1.0 - p), c) == t[k + 1]
  {
    ScaleMeets(x, (n - k) as real, (k + 1) as real, p, 1.0 - p, c, t[k], t[k + 1]);
  }

  /** The starting index of the recurrence; any index in range gives the same normalised masses. */
  function Mode(n: nat, p: real): (m: nat)
    requires 0.0 < p < 1.0
    ensures m <= n
  {
    var m := ((n + 1) as real * p).Floor;
    assert (n + 1) as real * p >= 0.0;
    if m < n then m else n
  }

  /** Unnormalised masses proportional to a sequence of sum one normalise to that sequence. */
  lemma Normalised(t: seq<real>, mass: seq<real>, c: real)
    requires |mass| == |t| && c > 0.0 && Sum(t) == 1.0
    requires forall k :: 0 <= k < |t| ==> Times(mass[k], c) == t[k]
    ensures Sum(mass) > 0.0
    ensures forall k :: 0 <= k < |t| ==> Over(mass[k], Sum(mass)) == t[k]
  {
    SumScale(t, mass, c);
    var total := Sum(mass);
    PositiveFactor(c, total);
    forall k | 0 <= k < |t| ensures Over(mass[k], total) == t[k] {
      Divide(mass[k], c, total, t[k]);
    }
  }

  lemma PositiveFactor(c: real, d: real)
    requires c > 0.0 && c * d == 1.0
    ensures d > 0.0
  {}

  lemma Divide(x: real, c: real, total: real, y: real)
    requires Times(x, c) == y && c * total == 1.0 && total > 0.0
    ensures Over(x, total) == y
  {}

  /** The mass array of the source, filled downward and then upward from `mode`. */
  method Fill(n: nat, p: real, mode: nat, ghost t: seq<real>) returns (mass: array<real>)
    requires 0.0 < p < 1.0 && mode <= n && |t| == n + 1
    requires forall k :: 0 <= k < n ==> RatioAt(t, n, p, k)
    ensures mass.Length == n + 1
    ensures forall k :: 0 <= k <= n ==> Times(mass[k], t[mode]) == t[k]
  {
    ghost var c := t[mode];
    mass := new real[n + 1](_ => 0.0);
    mass[mode] := 1.0;
    var k := mode;
    while k > 0
      invariant 0 <= k <= mode
      invariant forall j :: k <= j <= mode ==> Times(mass[j], c) == t[j]
    {
      StepDown(t, n, p, k, mass[k], c);
      mass[k - 1] := Scale(mass[k], k as real, (n - k + 1) as real, 1.0 - p, p);
      k := k - 1;
    }
    k := mode;
    while k < n
      invariant mode <= k <= n
      invariant forall j :: 0 <= j <= k ==> Times(mass[j], c) == t[j]
    {
      StepUp(t, n, p, k, mass[k], c);
      mass[k + 1] := Scale(mass[k], (n - k) as real, (k + 1) as real, p, 1.0 - p);
      k := k + 1;
    }
  }

  lemma MassesObeyRatio(n: nat, p: real)
    ensures forall k :: 0 <= k < n ==> RatioAt(Masses(n, p), n, p, k)
  {
    forall k | 0 <= k < n ensures RatioAt(Masses(n, p), n, p, k) {
      PmfRatio(n, p, k);
    }
  }

  lemma MassPositive(n: nat, p: real, k: nat)
    requires k <= n && 0.0 < p < 1.0
    ensures Masses(n, p)[k] > 0.0
  {
    PmfPositive(n, p, k);
  }

  /** Whatever the starting index, the normalised array is the binomial distribution. */
  method NormalisedMasses(n: nat, p: real, mode: nat) returns (mass: array<real>)
    requires 0.0 < p < 1.0 && mode <= n
    ensures mass.Length == n + 1
    ensures Sum(mass[..]) > 0.0
    ensures forall k :: 0 <= k <= n ==> Over(mass[k], Sum(mass[..])) == Masses(n, p)[k]
  {
    MassesObeyRatio(n, p);
    MassesSumToOne(n, p);
    MassPositive(n, p, mode);
    mass := Fill(n, p, mode, Masses(n, p));
    Normalised(Masses(n, p), mass[..], Masses(n, p)[mode]);
  }

  /**
   * The two ranks of a 95% interval: `lower` is the first count whose cumulative probability
   * reaches 0.025 and `upper` lies one past the first that reaches 0.975.
   */
  ghost predicate Ranks(t: seq<real>, lower: nat, upper: nat) {
    && lower < upper <= |t|
    && Sum(t[..lower]) < 0.025 <= Sum(t[..lower + 1])
    && Sum(t[..upper - 1]) < 0.975 <= Sum(t[..upper])
  }

  ghost predicate IsRankPair(n: nat, p: real, lower: nat, upper: nat) {
    Ranks(Masses(n, p), lower, upper)
  }

  /** The ranks are determined by n and p, and bracket at least 0.95 of the distribution. */
  lemma RankPairCovers(n: nat, p: real, lower: nat, upper: nat)
    requires IsRankPair(n, p, lower, upper)
    ensures Sum(Masses(n, p)[lower..upper]) >= 0.95
  {
    SumSplit(Masses(n, p), lower, upper);
  }

  lemma {:induction false} SumSplit(s: seq<real>, a: nat, b: nat)
    requires a <= b <= |s|
    ensures Sum(s[..b]) == Sum(s[..a]) + Sum(s[a..b])
  {
    if a == b {
      assert s[a..b] == [];
    } else {
      SumSplit(s, a, b - 1);
      SumSnoc(s, b - 1);
      assert s[a..b][..b - a - 1] == s[a..b - 1];
    }
  }

  /** With every mass positive there is only one such pair, so the ranks do not depend on the scan. */
  lemma RanksUnique(t: seq<real>, lower: nat, upper: nat, lower': nat, upper': nat)
    requires forall k :: 0 <= k < |t| ==> t[k] > 0.0
    requires Ranks(t, lower, upper) && Ranks(t, lower', upper')
    ensures lower == lower' && upper == upper'
  {
    if lower < lower' { SumMonotone(t, lower + 1, lower'); }
    if lower' < lower { SumMonotone(t, lower' + 1, lower); }
    if upper < upper' { SumMonotone(t, upper, upper' - 1); }
    if upper' < upper { SumMonotone(t, upper', upper - 1); }
  }

  lemma {:induction false} SumMonotone(t: seq<real>, a: nat, b: nat)
    requires a <= b <= |t| && forall k :: 0 <= k < |t| ==> t[k] > 0.0
    ensures Sum(t[..a]) <= Sum(t[..b])
  {
    if a < b {
      SumMonotone(t, a, b - 1);
      SumSnoc(t, b - 1);
    }
  }

  /** The scan over the running cumulative sum. Both ranks are always found. */
  method ScanRanks(mass: array<real>, ghost t: seq<real>) returns (lower: nat, upper: nat)
    requires mass.Length == |t| > 0 && Sum(mass[..]) > 0.0 && Sum(t) == 1.0
    requires forall k :: 0 <= k < |t| ==> Over(mass[k], Sum(mass[..])) == t[k]
    ensures Ranks(t, lower, upper)
  {
    assert t[..|t|] == t;
    var total := Sum(mass[..]);
    var cumulative: real := 0.0;
    var low: Option<nat> := None;
    var k := 0;
    while k < mass.Length
      invariant 0 <= k <= |t|
      invariant cumulative == Sum(t[..k]) < 0.975
      invariant low.None? ==> cumulative < 0.025
      invariant low.Some? ==> low.value < k && Sum(t[..low.value]) < 0.025 <= Sum(t[..low.value + 1])
    {
      SumSnoc(t, k);
      cumulative := cumulative + Over(mass[k], total);
      if low.None? && cumulative >= 0.025 {
        low := Some(k);
      }
      if cumulative >= 0.975 {
        return low.value, k + 1;
      }
      k := k + 1;
    }
    assert false;
  }

  /** What quantile_interval reports about a nonempty sample. */
  ghost predicate Reports(values: seq<int>, p: real, v: Interval)
    requires 0.0 < p < 1.0 && values != []
  {
    var n, s := |values|, Sort(values);
    && v.count == n
    && IsRankPair(n, p, v.lower, v.upper)
    && v.estimate == Nearest(values, p).value
    && v.lo == (if v.lower > 0 then Some(s[v.lower - 1]) else None)
    && v.hi == (if v.upper <= n then Some(s[v.upper - 1]) else None)
    && (v.width.Some? <==> v.lo.Some? && v.hi.Some? && v.estimate > 0)
    && (v.width.Some? ==> v.width.value == (v.hi.value - v.lo.value) as real / v.estimate as real)
  }

  /**
   * quantile_interval. For every nonempty sample and every probability the ranks exist, and
   * the interval ends are the order statistics at those ranks.
   */
  method Compute(values: seq<int>, p: real) returns (r: Result<Interval, Error>)
    requires 0.0 < p < 1.0
    ensures r.Err? <==> values == []
    ensures r.Ok? ==> Reports(values, p, r.value)
  {
    if values == [] { return Err(EmptyPopulation); }
    var n := |values|;
    var mass := NormalisedMasses(n, p, Mode(n, p));
    MassesSumToOne(n, p);
    var lower, upper := ScanRanks(mass, Masses(n, p));
    var ordered := Sort(values);
    var estimate := ordered[NearestRank(p, n) - 1];
    var lo: Option<int> := if lower > 0 then Some(ordered[lower - 1]) else None;
    var hi: Option<int> := if upper <= n then Some(ordered[upper - 1]) else None;
    var width: Option<real> := None;
    if lo.Some? && hi.Some? && estimate > 0 {
      width := Some((hi.value - lo.value) as real / estimate as real);
    }
    r := Ok(Interval(n, estimate, lower, upper, lo, hi, width));
  }

  /**
   * The coverage bound. The reported ranks hold at least 0.95 of the binomial distribution
   * between them, the interval is ordered, and its relative width is never negative.
   */
  lemma ReportCovers(values: seq<int>, p: real, v: Interval)
    requires 0.0 < p < 1.0 && values != [] && Reports(values, p, v)
    ensures v.lower < v.upper <= |values| + 1
    ensures Sum(Masses(|values|, p)[v.lower..v.upper]) >= 0.95
    ensures v.lo.Some? && v.hi.Some? ==> v.lo.value <= v.hi.value
    ensures v.width.Some? ==> v.width.value >= 0.0
  {
    hide Sum, Sort;
    RankPairCovers(|values|, p, v.lower, v.upper);
    SortCorrect(values);
    if v.width.Some? { NonNegativeQuotient(v.hi.value - v.lo.value, v.estimate); }
  }

  lemma NonNegativeQuotient(a: int, b: int)
    requires a >= 0 && b > 0
    ensures a as real / b as real >= 0.0
  {}
}
