/** tools/bench/scenario_rate.py: replaying a schedule twice inside its own window. */
module DoubledRate {
  import opened Wrappers
  import opened Scenario

  datatype Error = NoOffers | BadWindow | PopulationBound | BadId | NotExact | Unordered

  const SUFFIX := "-genx2"

  /** An arrival can be halved exactly and lies in the window. */
  predicate Exact(o: Offer, window: int) {
    o.Offer? && o.at.Some? && 0 <= o.at.value < window && o.at.value % 2 == 0
  }

  predicate AllExact(offers: seq<Offer>, window: int) {
    forall i :: 0 <= i < |offers| ==> Exact(offers[i], window)
  }

  predicate Ordered(ts: seq<int>) {
    forall i, j :: 0 <= i < j < |ts| ==> ts[i] <= ts[j]
  }

  function Halved(offers: seq<Offer>, window: int, shift: int): (r: seq<Offer>)
    requires AllExact(offers, window)
    ensures |r| == |offers|
  {
    seq(|offers|, i requires 0 <= i < |offers| => Offer(offers[i].body, Some(offers[i].at.value / 2 + shift)))
  }

  function Window(source: Scenario): int {
    source.load.injectionMs * 1_000_000
  }

  predicate Admissible(source: Scenario) {
    && source.offers != [] && source.load.injectionMs > 0
    && 2 * |source.offers| <= RECORD_BOUND
    && |source.id + SUFFIX| <= MAX_ID
  }

  predicate ExactOrdered(offers: seq<Offer>, window: int) {
    AllExact(offers, window) && Ordered(ExactTimes(offers, window))
  }

  function ExactTimes(offers: seq<Offer>, window: int): (ts: seq<int>)
    requires AllExact(offers, window)
    ensures |ts| == |offers|
  {
    seq(|offers|, i requires 0 <= i < |offers| => offers[i].at.value)
  }

  /** The doubled scenario of an accepted source. */
  function Doubled(source: Scenario): Scenario
    requires AllExact(source.offers, Window(source))
  {
    var w := Window(source);
    source.(
      id := source.id + SUFFIX,
      load := source.load.(maxRecords := Max(source.load.maxRecords, 2 * |source.offers|)),
      offers := Halved(source.offers, w, 0) + Halved(source.offers, w, w / 2))
  }

  /** The doubled scenario is the source but for its id, its room for records, and its offers, replayed twice. */
  lemma DoubledMeans(source: Scenario, i: nat)
    requires AllExact(source.offers, Window(source))
    ensures var d, n := Doubled(source), |source.offers|;
            && d.id == source.id + "-genx2" && d.topology == source.topology && d.classes == source.classes
            && d.load == source.load.(maxRecords := d.load.maxRecords) && |d.offers| == 2 * n
            && d.load.maxRecords >= source.load.maxRecords && d.load.maxRecords >= 2 * n
            && (d.load.maxRecords == source.load.maxRecords || d.load.maxRecords == 2 * n)
            && (i < n ==>
                  && d.offers[i] == Offer(source.offers[i].body, Some(source.offers[i].at.value / 2))
                  && d.offers[n + i] ==
                     Offer(source.offers[i].body,
                           Some(source.offers[i].at.value / 2 + source.load.injectionMs * 1_000_000 / 2)))
  {}

  /**
   * doubled_generator_scenario. Accepts exactly the admissible sources whose arrivals are
   * ordered, in the window and even, and returns the doubled scenario.
   */
  method DoubledGeneratorScenario(source: Scenario) returns (r: Result<Scenario, Error>)
    ensures r.Ok? <==> Admissible(source) && ExactOrdered(source.offers, Window(source))
    ensures r.Ok? ==> r.value == Doubled(source)
  {
    var offers := source.offers;
    if offers == [] { return Err(NoOffers); }
    if source.load.injectionMs <= 0 { return Err(BadWindow); }
    if 2 * |offers| > RECORD_BOUND { return Err(PopulationBound); }
    if |source.id + SUFFIX| > MAX_ID { return Err(BadId); }
    var window := source.load.injectionMs * 1_000_000;
    var period := window / 2;
    var replay: seq<Offer> := [];
    var previous := -1;
    var i := 0;
    while i < |offers|
      invariant 0 <= i <= |offers| && AllExact(offers[..i], window)
      invariant Ordered(ExactTimes(offers[..i], window))
      invariant previous == if i == 0 then -1 else offers[i - 1].at.value
      invariant replay == Halved(offers[..i], window, 0)
    {
      if offers[i].NotAnObject? || offers[i].at.None? { return Err(NotExact); }
      var at := offers[i].at.value;
      if at < 0 || at >= window || at % 2 != 0 { return Err(NotExact); }
      if at < previous {
        OutOfOrder(offers, window, i);
        return Err(Unordered);
      }
      OneMore(offers, window, i, 0);
      previous := at;
      replay := replay + [Offer(offers[i].body, Some(at / 2))];
      i := i + 1;
    }
    assert offers[..|offers|] == offers;
    i := 0;
    while i < |offers|
      invariant 0 <= i <= |offers|
      invariant replay == Halved(offers, window, 0) + Halved(offers[..i], window, period)
    {
      OneMore(offers, window, i, period);
      replay := replay + [Offer(offers[i].body, Some(offers[i].at.value / 2 + period))];
      i := i + 1;
    }
    r := Ok(source.(
      id := source.id + SUFFIX,
      load := source.load.(maxRecords := Max(source.load.maxRecords, 2 * |offers|)),
      offers := replay));
  }

  lemma OutOfOrder(offers: seq<Offer>, window: int, i: nat)
    requires 0 < i < |offers| && Exact(offers[i], window) && AllExact(offers[..i], window)
    requires offers[i].at.value < offers[i - 1].at.value
    ensures !ExactOrdered(offers, window)
  {
    if AllExact(offers, window) {
      var ts := ExactTimes(offers, window);
      assert ts[i - 1] > ts[i];
    }
  }

  lemma OneMore(offers: seq<Offer>, window: int, i: nat, shift: int)
    requires i < |offers| && Exact(offers[i], window) && AllExact(offers[..i], window)
    ensures AllExact(offers[..i + 1], window)
    ensures Halved(offers[..i + 1], window, shift)
         == Halved(offers[..i], window, shift) + [Offer(offers[i].body, Some(offers[i].at.value / 2 + shift))]
    ensures Ordered(ExactTimes(offers[..i], window)) && (i > 0 ==> offers[i - 1].at.value <= offers[i].at.value)
        ==> Ordered(ExactTimes(offers[..i + 1], window))
  {
    var ts := ExactTimes(offers[..i + 1], window);
    assert ExactTimes(offers[..i], window) == ts[..i];
    if Ordered(ts[..i]) && (i > 0 ==> ts[i - 1] <= ts[i]) {
      forall j, k | 0 <= j < k < |ts| ensures ts[j] <= ts[k] {
        if k < i { assert ts[..i][j] <= ts[..i][k]; }
        else if j < i - 1 { assert ts[..i][j] <= ts[..i][i - 1]; }
      }
    }
  }

  // ---- properties of the doubled schedule ----

  ghost function DoubledTimes(source: Scenario): seq<int>
    requires AllExact(source.offers, Window(source))
  {
    var w := Window(source);
    ShiftedTimes(ExactTimes(source.offers, w), 0) + ShiftedTimes(ExactTimes(source.offers, w), w / 2)
  }

  function ShiftedTimes(ts: seq<int>, shift: int): seq<int> {
    seq(|ts|, i requires 0 <= i < |ts| => ts[i] / 2 + shift)
  }

  lemma DoubledTimesAreTimes(source: Scenario)
    requires AllExact(source.offers, Window(source))
    ensures forall o :: o in Doubled(source).offers ==> o.Offer? && o.at.Some?
    ensures Times(Doubled(source).offers) == DoubledTimes(source)
  {}

  /** The doubled schedule is ordered and stays in the original window. */
  lemma DoubledOrdered(source: Scenario)
    requires source.load.injectionMs > 0 && ExactOrdered(source.offers, Window(source))
    ensures Ordered(DoubledTimes(source))
    ensures forall i :: 0 <= i < |DoubledTimes(source)| ==> 0 <= DoubledTimes(source)[i] < Window(source)
  {}

  /** Halving and shifting the times by `shift` moves the count up to t to the count up to shift + t/2. */
  lemma {:induction false} CountHalved(ts: seq<int>, shift: int, t: int)
    requires t % 2 == 0 && forall i :: 0 <= i < |ts| ==> ts[i] >= 0 && ts[i] % 2 == 0
    ensures Count(ShiftedTimes(ts, shift), shift, shift + t / 2) == Count(ts, 0, t)
  {
    if ts != [] {
      CountHalved(ts[..|ts| - 1], shift, t);
      assert ShiftedTimes(ts, shift)[..|ts| - 1] == ShiftedTimes(ts[..|ts| - 1], shift);
    }
  }

  lemma {:induction false} CountFrom(ts: seq<int>, lo: int, lo': int, hi: int)
    requires lo <= lo' && forall i :: 0 <= i < |ts| ==> ts[i] >= lo'
    ensures Count(ts, lo, hi) == Count(ts, lo', hi)
  {
    if ts != [] { CountFrom(ts[..|ts| - 1], lo, lo', hi); }
  }

  /**
   * Exact doubling of the arrival curve: up to half the time there are as many arrivals as
   * before, and the second half adds the same curve on top of a full first replay.
   */
  lemma ArrivalCurveDoubles(source: Scenario, t: int)
    requires source.load.injectionMs > 0 && ExactOrdered(source.offers, Window(source))
    requires 0 <= t <= Window(source) && t % 2 == 0
    ensures var w := Window(source); var ts := ExactTimes(source.offers, w);
            && Count(DoubledTimes(source), 0, t / 2) == Count(ts, 0, t)
            && Count(DoubledTimes(source), 0, w / 2 + t / 2) == |source.offers| + Count(ts, 0, t)
  {
    var w := Window(source);
    var ts := ExactTimes(source.offers, w);
    forall i | 0 <= i < |ts| ensures 0 <= ts[i] < w && ts[i] % 2 == 0 {
      assert Exact(source.offers[i], w);
    }
    CurveDoubles(ts, w, t);
  }

  lemma CurveDoubles(ts: seq<int>, w: int, t: int)
    requires w % 2 == 0 && 0 <= t <= w && t % 2 == 0
    requires forall i :: 0 <= i < |ts| ==> 0 <= ts[i] < w && ts[i] % 2 == 0
    ensures var both := ShiftedTimes(ts, 0) + ShiftedTimes(ts, w / 2);
            && Count(both, 0, t / 2) == Count(ts, 0, t)
            && Count(both, 0, w / 2 + t / 2) == |ts| + Count(ts, 0, t)
  {
    hide Count;
    var a, b := ShiftedTimes(ts, 0), ShiftedTimes(ts, w / 2);
    CountConcat(a, b, 0, t / 2);
    CountConcat(a, b, 0, w / 2 + t / 2);
    CountHalved(ts, 0, t);
    CountHalved(ts, w / 2, t);
    CountNone(b, 0, t / 2);
    CountAll(a, 0, w / 2 + t / 2);
    CountFrom(b, 0, w / 2, w / 2 + t / 2);
  }
}
