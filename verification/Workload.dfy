/** tools/bench/host_compare.py: when two rate points carry the same work. */
module Workload {
  import opened Wrappers
  import opened Scenario
  import UniformRate
  import DoubledRate

  datatype Error = EmptyWorkload | MalformedOffer | BodyChanged | MixChanged

  /** What may not change with the rate; the record bound is excluded. */
  datatype Shape = Shape(
    topology: string, classes: string, injectionMs: int, maxOutstanding: int, other: string, kinds: set<string>)

  datatype Signature = Signature(shape: Shape, mix: multiset<string>)

  function Bodies(offers: seq<Offer>): seq<string> {
    if offers == [] then []
    else Bodies(offers[..|offers| - 1]) + if offers[|offers| - 1].Offer? then [offers[|offers| - 1].body] else []
  }

  /** workload_signature. */
  function WorkloadSignature(s: Scenario): Result<Signature, Error> {
    if s.offers == [] then Err(EmptyWorkload)
    else
      var mix := multiset(Bodies(s.offers));
      if |mix| != |s.offers| then Err(MalformedOffer)
      else
        var kinds := set b | b in mix;
        Ok(Signature(Shape(s.topology, s.classes, s.load.injectionMs, s.load.maxOutstanding, s.load.other, kinds), mix))
  }

  /** require_same_workload: no error. */
  predicate SameWorkload(reference: Signature, current: Signature) {
    && current.shape == reference.shape
    && forall k :: k in current.mix ==> reference.mix[k] * |current.mix| == current.mix[k] * |reference.mix|
  }

  /** Signatures as workload_signature produces them. */
  ghost predicate Proper(s: Signature) {
    && |s.mix| > 0
    && forall k :: k in s.mix <==> k in s.shape.kinds
  }

  lemma SignaturesAreProper(s: Scenario)
    requires WorkloadSignature(s).Ok?
    ensures Proper(WorkloadSignature(s).value)
  {}

  /** The mix check looks only at the current kinds, yet is an equivalence on signatures. */
  lemma SameWorkloadIsEquivalence(a: Signature, b: Signature, c: Signature)
    requires Proper(a) && Proper(b) && Proper(c)
    ensures SameWorkload(a, a)
    ensures SameWorkload(a, b) ==> SameWorkload(b, a)
    ensures SameWorkload(a, b) && SameWorkload(b, c) ==> SameWorkload(a, c)
  {}

  /** Checking every point against the first one makes all pairs of points agree. */
  lemma FirstPointSuffices(points: seq<Signature>, i: nat, j: nat)
    requires i < |points| && j < |points|
    requires forall k :: 0 <= k < |points| ==> Proper(points[k])
    requires forall k :: 0 < k < |points| ==> SameWorkload(points[0], points[k])
    ensures SameWorkload(points[i], points[j])
  {
    var first, a, b := points[0], points[i], points[j];
    SameWorkloadIsEquivalence(first, a, b);
    SameWorkloadIsEquivalence(a, first, b);
    SameWorkloadIsEquivalence(first, first, b);
  }

  // ---- what the check means for two scenarios ----

  /** The offers of a scenario that have a given body. */
  ghost function WithBody(offers: seq<Offer>, body: string): set<int> {
    set i | 0 <= i < |offers| && offers[i].Offer? && offers[i].body == body
  }

  lemma WithBodySnoc(offers: seq<Offer>, body: string, n: nat)
    requires |offers| == n + 1
    ensures n !in WithBody(offers[..n], body)
    ensures WithBody(offers, body) ==
            WithBody(offers[..n], body) + if offers[n].Offer? && offers[n].body == body then {n} else {}
  {}

  lemma {:induction false} MixCounts(offers: seq<Offer>, body: string)
    ensures multiset(Bodies(offers))[body] == |WithBody(offers, body)|
  {
    if offers == [] {
      assert WithBody(offers, body) == {};
    } else {
      hide WithBody;
      var n := |offers| - 1;
      MixCounts(offers[..n], body);
      WithBodySnoc(offers, body, n);
    }
  }

  /** A workload has a signature exactly if there are offers and all of them are objects. */
  lemma SignedExactly(s: Scenario)
    ensures WorkloadSignature(s).Ok? <==> s.offers != [] && forall i :: 0 <= i < |s.offers| ==> s.offers[i].Offer?
    ensures WorkloadSignature(s).Ok? ==> |WorkloadSignature(s).value.mix| == |s.offers|
  {
    BodiesLength(s.offers);
    FewerBodies(s.offers);
  }

  lemma {:induction false} FewerBodies(offers: seq<Offer>)
    ensures |Bodies(offers)| == |offers| ==> AllObjects(offers)
  {
    if offers != [] {
      var n := |offers| - 1;
      BodiesLength(offers[..n]);
      FewerBodies(offers[..n]);
      assert forall i :: 0 <= i < n ==> offers[..n][i] == offers[i];
    }
  }

  /** Every body occurs in the same proportion in both. */
  ghost predicate SameProportions(a: seq<Offer>, b: seq<Offer>) {
    forall body: string :: |WithBody(a, body)| * |b| == |WithBody(b, body)| * |a|
  }

  /**
   * Two scenarios are the same workload exactly if topology, classes, window, bound on outstanding
   * work and the rest of the load agree and every body occurs in the same proportion in both. The
   * scenario id, the record bound and the arrival times do not matter.
   */
  lemma SameWorkloadExactly(a: Scenario, b: Scenario)
    requires WorkloadSignature(a).Ok? && WorkloadSignature(b).Ok?
    ensures SameWorkload(WorkloadSignature(a).value, WorkloadSignature(b).value) <==>
            && a.topology == b.topology && a.classes == b.classes
            && a.load.injectionMs == b.load.injectionMs && a.load.maxOutstanding == b.load.maxOutstanding
            && a.load.other == b.load.other && SameProportions(a.offers, b.offers)
  {
    hide Bodies, WithBody;
    var x, y := WorkloadSignature(a).value, WorkloadSignature(b).value;
    SignedExactly(a);
    SignedExactly(b);
    forall body: string
      ensures x.mix[body] == |WithBody(a.offers, body)| && y.mix[body] == |WithBody(b.offers, body)|
    {
      MixCounts(a.offers, body);
      MixCounts(b.offers, body);
    }
    if SameWorkload(x, y) {
      forall body: string ensures |WithBody(a.offers, body)| * |b.offers| == |WithBody(b.offers, body)| * |a.offers| {
        if body !in y.mix { assert body !in y.shape.kinds; assert body !in x.mix; }
      }
    }
    if SameProportions(a.offers, b.offers) {
      forall body: string ensures body in x.mix <==> body in y.mix {
        SameSign(x.mix[body], |b.offers|, y.mix[body], |a.offers|);
      }
      assert x.shape.kinds == y.shape.kinds;
    }
  }

  lemma SameSign(p: nat, m: nat, q: nat, n: nat)
    requires p * m == q * n && m > 0 && n > 0
    ensures p > 0 <==> q > 0
  {}

  // ---- the two generators keep the workload ----

  ghost predicate AllObjects(offers: seq<Offer>) {
    forall i :: 0 <= i < |offers| ==> offers[i].Offer?
  }

  lemma {:induction false} BodiesLength(offers: seq<Offer>)
    ensures |Bodies(offers)| <= |offers|
    ensures AllObjects(offers) ==> |Bodies(offers)| == |offers|
  {
    if offers != [] { BodiesLength(offers[..|offers| - 1]); }
  }

  lemma {:induction false} BodiesConcat(a: seq<Offer>, b: seq<Offer>)
    ensures Bodies(a + b) == Bodies(a) + Bodies(b)
  {
    if b == [] {
      assert a + b == a;
    } else {
      assert (a + b)[..|a + b| - 1] == a + b[..|b| - 1];
      BodiesConcat(a, b[..|b| - 1]);
    }
  }

  lemma {:induction false} BodiesHalved(offers: seq<Offer>, window: int, shift: int)
    requires DoubledRate.AllExact(offers, window)
    ensures Bodies(DoubledRate.Halved(offers, window, shift)) == Bodies(offers)
  {
    if offers != [] {
      var h := DoubledRate.Halved(offers, window, shift);
      assert h[..|h| - 1] == DoubledRate.Halved(offers[..|offers| - 1], window, shift);
      BodiesHalved(offers[..|offers| - 1], window, shift);
    }
  }

  /** A schedule and its doubled replay are always recognised as the same workload. */
  lemma DoubledIsSameWorkload(source: Scenario)
    requires DoubledRate.Admissible(source)
    requires DoubledRate.ExactOrdered(source.offers, DoubledRate.Window(source))
    ensures var a, b := WorkloadSignature(source), WorkloadSignature(DoubledRate.Doubled(source));
            a.Ok? && b.Ok? && SameWorkload(a.value, b.value)
  {
    hide Bodies;
    var w, offers := DoubledRate.Window(source), source.offers;
    var d := DoubledRate.Doubled(source);
    var bodies := Bodies(offers);
    assert AllObjects(offers) by {
      forall i | 0 <= i < |offers| ensures offers[i].Offer? { assert DoubledRate.Exact(offers[i], w); }
    }
    BodiesLength(offers);
    BodiesHalved(offers, w, 0);
    BodiesHalved(offers, w, w / 2);
    BodiesConcat(DoubledRate.Halved(offers, w, 0), DoubledRate.Halved(offers, w, w / 2));
    assert Bodies(d.offers) == bodies + bodies;
    assert multiset(bodies + bodies) == multiset(bodies) + multiset(bodies);
    TwiceTheMix(multiset(bodies));
  }

  lemma TwiceTheMix(m: multiset<string>)
    ensures |m + m| == 2 * |m|
    ensures (set b | b in m) == (set b | b in m + m)
    ensures forall k :: k in m + m ==> m[k] * |m + m| == (m + m)[k] * |m|
  {}

  /** Every offer of a uniform point has the template's body. */
  lemma {:induction false} BodiesUniform(body: string, rate: nat, population: nat)
    requires rate > 0
    ensures Bodies(UniformRate.UniformOffers(body, rate, population)) == Repeat(body, population)
  {
    if population > 0 {
      var offers := UniformRate.UniformOffers(body, rate, population);
      assert offers[..population - 1] == UniformRate.UniformOffers(body, rate, population - 1);
      BodiesUniform(body, rate, population - 1);
    }
  }

  function Repeat(body: string, n: nat): seq<string> {
    if n == 0 then [] else Repeat(body, n - 1) + [body]
  }

  lemma {:induction false} RepeatMix(body: string, n: nat)
    ensures multiset(Repeat(body, n)) == multiset{}[body := n]
  {
    if n > 0 { RepeatMix(body, n - 1); }
  }

  /** Any two rate points expanded from one template are the same workload. */
  lemma RatePointsShareWorkload(source: Scenario, r0: int, r1: int, size: Scenario -> nat)
    requires UniformRate.UniformRatePoint(source, r0, size).Ok?
    requires UniformRate.UniformRatePoint(source, r1, size).Ok?
    ensures var a := WorkloadSignature(UniformRate.UniformRatePoint(source, r0, size).value);
            var b := WorkloadSignature(UniformRate.UniformRatePoint(source, r1, size).value);
            a.Ok? && b.Ok? && SameWorkload(a.value, b.value)
  {
    UniformRate.AcceptedShape(source, r0, size);
    UniformRate.AcceptedShape(source, r1, size);
    var seconds := source.load.injectionMs / 1000;
    PointSignature(source, UniformRate.UniformRatePoint(source, r0, size).value, r0, seconds);
    PointSignature(source, UniformRate.UniformRatePoint(source, r1, size).value, r1, seconds);
    SingleKindSame(TemplateShape(source), source.offers[0].body, r0 * seconds, r1 * seconds);
  }

  function TemplateShape(source: Scenario): Shape
    requires |source.offers| == 1 && source.offers[0].Offer?
  {
    Shape(source.topology, source.classes, source.load.injectionMs, source.load.maxOutstanding,
          source.load.other, {source.offers[0].body})
  }

  lemma SingleKindSame(shape: Shape, body: string, m: nat, n: nat)
    requires m > 0 && n > 0
    ensures SameWorkload(Signature(shape, multiset{}[body := m]), Signature(shape, multiset{}[body := n]))
  {}

  lemma PointSignature(source: Scenario, d: Scenario, rate: nat, seconds: nat)
    requires rate > 0 && seconds > 0 && |source.offers| == 1 && source.offers[0].Offer?
    requires d.offers == UniformRate.UniformOffers(source.offers[0].body, rate, rate * seconds)
    requires d.topology == source.topology && d.classes == source.classes
    requires d.load == source.load.(maxRecords := d.load.maxRecords)
    ensures rate * seconds > 0
    ensures WorkloadSignature(d) ==
            Ok(Signature(TemplateShape(source), multiset{}[source.offers[0].body := rate * seconds]))
  {
    var body, n := source.offers[0].body, rate * seconds;
    assert n > 0;
    BodiesUniform(body, rate, n);
    RepeatMix(body, n);
    var mix := multiset{}[body := n];
    assert (set b | b in mix) == {body};
  }
}
