/** tools/bench/scenario_grid.py: expanding one offer into a uniform open-loop rate point. */
module UniformRate {
  import opened Wrappers
  import opened Scenario

  datatype Error =
    | BadRate | TemplateNotSingle | TemplateNotAtZero | WindowNotWholeSeconds | BadBounds
    | PopulationBound | BadId | TooLarge

  const SECOND_NS := 1_000_000_000
  const MAX_SCENARIO_BYTES := 16 * 1024 * 1024

  function Digits(n: nat): (s: string)
    ensures |s| > 0
  {
    var d := ['0', '1', '2', '3', '4', '5', '6', '7', '8', '9'][n % 10];
    if n < 10 then [d] else Digits(n / 10) + [d]
  }

  /** Arrival time of offer `i`: exact integer floor division. */
  function Arrival(i: nat, rate: nat): nat
    requires rate > 0
  {
    i * SECOND_NS / rate
  }

  function UniformOffers(body: string, rate: nat, population: nat): (r: seq<Offer>)
    requires rate > 0
    ensures |r| == population
  {
    seq(population, i requires 0 <= i => Offer(body, Some(Arrival(i, rate))))
  }

  /** uniform_rate_point; `size` is the length of a scenario's canonical serialisation. */
  function UniformRatePoint(source: Scenario, rate: int, size: Scenario -> nat): Result<Scenario, Error> {
    var load := source.load;
    if rate <= 0 then Err(BadRate)
    else if |source.offers| != 1 then Err(TemplateNotSingle)
    else if source.offers[0].NotAnObject? || source.offers[0].at != Some(0) then Err(TemplateNotAtZero)
    else if load.injectionMs <= 0 || load.injectionMs % 1000 != 0 then Err(WindowNotWholeSeconds)
    else if load.maxRecords <= 0 || load.maxOutstanding <= 0 || load.maxOutstanding > load.maxRecords then
      Err(BadBounds)
    else
      var population := rate * (load.injectionMs / 1000);
      if population <= 0 || population > RECORD_BOUND then Err(PopulationBound)
      else
        var id := source.id + "-r" + Digits(rate);
        if |id| > MAX_ID then Err(BadId)
        else
          var derived := source.(
            id := id,
            load := load.(maxRecords := Max(load.maxRecords, population)),
            offers := UniformOffers(source.offers[0].body, rate, population));
          if size(derived) + 1 > MAX_SCENARIO_BYTES then Err(TooLarge) else Ok(derived)
  }

  // ---- exactly which points are accepted ----

  /** The value of a decimal numeral. */
  ghost function Value(s: string): nat {
    if s == [] then 0 else 10 * Value(s[..|s| - 1]) + DigitValue(s[|s| - 1])
  }

  ghost function DigitValue(c: char): nat { if '0' <= c <= '9' then c as int - '0' as int else 0 }

  /** The digits of a number are its decimal numeral, without leading zeros. */
  lemma {:induction false} DigitsValue(n: nat)
    ensures Value(Digits(n)) == n
    ensures forall i :: 0 <= i < |Digits(n)| ==> '0' <= Digits(n)[i] <= '9'
    ensures n > 0 ==> Digits(n)[0] != '0'
  {
    if n >= 10 {
      DigitsValue(n / 10);
      assert Digits(n)[..|Digits(n)| - 1] == Digits(n / 10);
    } else {
      assert Value([]) == 0;
    }
  }

  /** A template: one offer at time zero, a window of whole seconds, and bounds that fit one another. */
  predicate Template(source: Scenario) {
    && |source.offers| == 1 && source.offers[0].Offer? && source.offers[0].at == Some(0)
    && source.load.injectionMs > 0 && source.load.injectionMs % 1000 == 0
    && 0 < source.load.maxOutstanding <= source.load.maxRecords
  }

  /** The rate point of a template: its own offer once per arrival, an id that names the rate, and room for all. */
  ghost predicate IsRatePoint(source: Scenario, rate: nat, d: Scenario)
    requires |source.offers| == 1 && source.offers[0].Offer? && rate > 0
  {
    && d.topology == source.topology && d.classes == source.classes
    && d.load.injectionMs == source.load.injectionMs && d.load.maxOutstanding == source.load.maxOutstanding
    && d.load.other == source.load.other
    && d.load.maxRecords >= source.load.maxRecords && d.load.maxRecords >= |d.offers|
    && (d.load.maxRecords == source.load.maxRecords || d.load.maxRecords == |d.offers|)
    && (exists digits :: d.id == source.id + "-r" + digits && Value(digits) == rate && digits != "" && digits[0] != '0'
                           && forall i :: 0 <= i < |digits| ==> '0' <= digits[i] <= '9')
    && |d.offers| * 1000 == rate * source.load.injectionMs
    && forall i :: 0 <= i < |d.offers| ==> d.offers[i] == Offer(source.offers[0].body, Some(i * SECOND_NS / rate))
  }

  /**
   * uniform_rate_point accepts exactly a positive rate on a template whose rate point stays within
   * the record bound, the length of an id and the size of an input, and returns that point.
   */
  lemma AcceptedExactly(source: Scenario, rate: int, size: Scenario -> nat)
    ensures var r := UniformRatePoint(source, rate, size);
            && (r.Ok? <==>
                  && rate > 0 && Template(source) && rate * source.load.injectionMs <= 1_000_000 * 1000
                  && |source.id| + 2 + |Digits(rate)| <= 128
                  && size(Point(source, rate)) < 16_777_216)
            && (r.Ok? ==> r.value == Point(source, rate) && IsRatePoint(source, rate, r.value))
  {
    if rate > 0 && Template(source) {
      var seconds := source.load.injectionMs / 1000;
      assert source.load.injectionMs == seconds * 1000;
      Thousands(rate, seconds);
      DigitsValue(rate);
      PointIsRatePoint(source, rate);
    }
  }

  /** The derived scenario. */
  ghost function Point(source: Scenario, rate: nat): Scenario
    requires |source.offers| == 1 && source.offers[0].Offer? && rate > 0
  {
    var population := rate * (source.load.injectionMs / 1000);
    if population < 0 then source
    else
      source.(id := source.id + "-r" + Digits(rate),
              load := source.load.(maxRecords := Max(source.load.maxRecords, population)),
              offers := UniformOffers(source.offers[0].body, rate, population))
  }

  lemma PointIsRatePoint(source: Scenario, rate: nat)
    requires rate > 0 && Template(source)
    ensures IsRatePoint(source, rate, Point(source, rate))
  {
    DigitsValue(rate);
    var seconds := source.load.injectionMs / 1000;
    Thousands(rate, seconds);
    assert Point(source, rate).id == source.id + "-r" + Digits(rate);
  }

  lemma Thousands(rate: nat, seconds: nat)
    ensures rate * seconds * 1000 == rate * (seconds * 1000)
    ensures rate > 0 && seconds > 0 ==> rate * seconds > 0
  {}

  // ---- floor-division arithmetic ----

  /** Floor division: the arrival is the last nanosecond not after the exact time i / rate. */
  lemma ArrivalBounds(i: nat, rate: nat)
    requires rate > 0
    ensures Arrival(i, rate) * rate <= i * SECOND_NS < (Arrival(i, rate) + 1) * rate
  {}

  lemma CancelLess(x: int, y: int, d: int)
    requires d > 0 && x * d < y * d
    ensures x < y
  {}

  lemma CancelAtMost(x: int, y: int, d: int)
    requires d > 0 && x * d <= y * d
    ensures x <= y
  {}

  lemma ScaleAtMost(x: int, y: int, d: int)
    requires d > 0 && x <= y
    ensures x * d <= y * d
  {}

  lemma Between(x: int, y: int, d: int, lo: int, hi: int)
    requires d > 0 && lo * d <= x < hi * d && y * d <= x < (y + 1) * d
    ensures lo <= y < hi
  {}

  /** Consecutive arrivals are the floor or the ceiling of 10^9 / rate apart. */
  lemma ArrivalGap(i: nat, rate: nat)
    requires rate > 0
    ensures var gap := Arrival(i + 1, rate) - Arrival(i, rate);
            gap == SECOND_NS / rate || (gap == SECOND_NS / rate + 1 && SECOND_NS % rate != 0)
  {
    var a, b, q := Arrival(i, rate), Arrival(i + 1, rate), SECOND_NS / rate;
    var r := SECOND_NS % rate;
    ArrivalBounds(i, rate);
    ArrivalBounds(i + 1, rate);
    assert SECOND_NS == q * rate + r;
    var rest := i * SECOND_NS - a * rate;
    assert 0 <= rest < rate by { assert (a + 1) * rate == a * rate + rate; }
    var x := (i + 1) * SECOND_NS;
    assert x == a * rate + rest + q * rate + r;
    assert (a + q) * rate == a * rate + q * rate;
    assert (a + q + 2) * rate == a * rate + q * rate + 2 * rate;
    Between(x, b, rate, a + q, a + q + 2);
    if r == 0 {
      assert (a + q + 1) * rate == a * rate + q * rate + rate;
      Between(x, b, rate, a + q, a + q + 1);
    }
  }

  /** An arrival falls in the second its index belongs to: offers are exactly `rate` per second. */
  lemma ArrivalSecond(i: nat, rate: nat, s: nat)
    requires 0 < rate <= SECOND_NS
    ensures s * rate <= i < (s + 1) * rate <==> s * SECOND_NS <= Arrival(i, rate) < (s + 1) * SECOND_NS
  {
    var a := Arrival(i, rate);
    ArrivalBounds(i, rate);
    SecondEdge(i, a, rate, s);
    SecondEdge(i, a, rate, s + 1);
  }

  lemma SecondEdge(i: nat, a: nat, rate: nat, s: nat)
    requires rate > 0 && a * rate <= i * SECOND_NS < (a + 1) * rate
    ensures s * rate <= i <==> s * SECOND_NS <= a
  {
    PeriodEdge(i, a, rate, SECOND_NS, s);
  }

  lemma PeriodEdge(i: nat, a: nat, rate: nat, period: nat, s: nat)
    requires rate > 0 && period > 0 && a * rate <= i * period < (a + 1) * rate
    ensures s * rate <= i <==> s * period <= a
  {
    var x := s * rate * period;
    assert x == (s * rate) * period == (s * period) * rate;
    if s * rate <= i {
      ScaleAtMost(s * rate, i, period);
      CancelLess(s * period, a + 1, rate);
    }
    if s * period <= a {
      ScaleAtMost(s * period, a, rate);
      CancelAtMost(s * rate, i, period);
    }
  }

  // ---- the accepted schedule ----

  lemma AcceptedShape(source: Scenario, rate: int, size: Scenario -> nat)
    requires UniformRatePoint(source, rate, size).Ok?
    ensures var d := UniformRatePoint(source, rate, size).value;
            && 0 < rate <= RECORD_BOUND && source.load.injectionMs > 0 && |source.offers| == 1
            && source.load.injectionMs % 1000 == 0 && source.offers[0].Offer?
            && d.offers == UniformOffers(source.offers[0].body, rate, rate * (source.load.injectionMs / 1000))
            && d.topology == source.topology && d.classes == source.classes
            && d.load == source.load.(maxRecords := d.load.maxRecords)
            && |d.offers| <= d.load.maxRecords
  {}

  /** The declared-rate equation that comparison checks on every point. */
  lemma DeclaredRate(source: Scenario, rate: int, size: Scenario -> nat)
    requires UniformRatePoint(source, rate, size).Ok?
    ensures var d := UniformRatePoint(source, rate, size).value;
            |d.offers| * 1000 == rate * d.load.injectionMs
  {}

  /** Arrivals strictly increase, a floor or ceiling of 10^9 / rate apart, inside the window. */
  lemma AcceptedSchedule(source: Scenario, rate: int, size: Scenario -> nat, i: nat)
    requires UniformRatePoint(source, rate, size).Ok?
    requires i < |UniformRatePoint(source, rate, size).value.offers|
    ensures var d := UniformRatePoint(source, rate, size).value;
            && d.offers[i].Offer? && d.offers[i].at == Some(Arrival(i, rate))
            && Arrival(i, rate) < Arrival(i + 1, rate)
            && Arrival(i, rate) < d.load.injectionMs * 1_000_000
  {
    AcceptedShape(source, rate, size);
    ArrivalGap(i, rate);
    assert SECOND_NS / rate >= 1000 by { Quotient(rate); }
    var seconds := source.load.injectionMs / 1000;
    ArrivalBounds(i, rate);
    SecondEdge(i, Arrival(i, rate), rate, seconds);
    assert rate * seconds == seconds * rate;
  }

  lemma Quotient(rate: nat)
    requires 0 < rate <= RECORD_BOUND
    ensures SECOND_NS / rate >= 1000
  {}

  function Arrivals(rate: nat, population: nat): seq<int>
    requires rate > 0
  {
    seq(population, i requires 0 <= i => Arrival(i, rate))
  }

  /** Every whole second of the window receives exactly `rate` arrivals. */
  lemma SecondHoldsRate(rate: nat, seconds: nat, s: nat)
    requires 0 < rate <= SECOND_NS && s < seconds
    ensures Count(Arrivals(rate, rate * seconds), s * SECOND_NS, (s + 1) * SECOND_NS) == rate
  {
    var ts := Arrivals(rate, rate * seconds);
    var a, b := s * rate, (s + 1) * rate;
    ScaleAtMost(s + 1, seconds, rate);
    forall i | 0 <= i < |ts| ensures a <= i < b <==> s * SECOND_NS <= ts[i] < (s + 1) * SECOND_NS {
      ArrivalSecond(i, rate, s);
    }
    CountBlock(ts, a, b, s * SECOND_NS, (s + 1) * SECOND_NS);
    assert (s + 1) * rate == s * rate + rate;
  }

  /** If exactly the positions a..b hold times in [lo, hi), then b - a times are counted. */
  lemma {:induction false} CountBlock(ts: seq<int>, a: nat, b: nat, lo: int, hi: int)
    requires a <= b <= |ts|
    requires forall i :: 0 <= i < |ts| ==> (a <= i < b <==> lo <= ts[i] < hi)
    ensures Count(ts, lo, hi) == b - a
  {
    if ts != [] {
      var n := |ts| - 1;
      CountBlock(ts[..n], if a <= n then a else n, if b <= n then b else n, lo, hi);
    }
  }

  /** The accepted point's own arrival times are those the per-second count speaks about. */
  lemma AcceptedSecond(source: Scenario, rate: int, size: Scenario -> nat, s: nat)
    requires UniformRatePoint(source, rate, size).Ok? && s < source.load.injectionMs / 1000
    ensures var d := UniformRatePoint(source, rate, size).value;
            && (forall o :: o in d.offers ==> o.Offer? && o.at.Some?)
            && Count(Times(d.offers), s * SECOND_NS, (s + 1) * SECOND_NS) == rate
  {
    AcceptedShape(source, rate, size);
    var d := UniformRatePoint(source, rate, size).value;
    var seconds := source.load.injectionMs / 1000;
    assert Times(d.offers) == Arrivals(rate, rate * seconds);
    SecondHoldsRate(rate, seconds, s);
  }
}
