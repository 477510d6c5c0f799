/** The parsed load scenario that the rate tools transform and compare. */
module Scenario {
  import opened Wrappers

  /** An offer: everything but its arrival time as canonical bytes, and the arrival time. */
  datatype Offer = Offer(body: string, at: Option<int>) | NotAnObject

  /** `other` is the rest of the load object, as canonical bytes. */
  datatype Load = Load(injectionMs: int, maxRecords: int, maxOutstanding: int, other: string)

  /** `id` is held as its UTF-8 code units. */
  datatype Scenario = Scenario(id: string, topology: string, classes: string, load: Load, offers: seq<Offer>)

  const MAX_ID := 128
  const RECORD_BOUND := 1_000_000

  function Max(a: int, b: int): (r: int)
    ensures r >= a && r >= b && (r == a || r == b)
  {
    if a >= b then a else b
  }

  /** Arrival times of well-formed offers. */
  function Times(offers: seq<Offer>): (ts: seq<int>)
    requires forall o :: o in offers ==> o.Offer? && o.at.Some?
    ensures |ts| == |offers|
  {
    seq(|offers|, i requires 0 <= i < |offers| => assert offers[i] in offers; offers[i].at.value)
  }

  /** How many of the given times lie in [lo, hi). */
  function Count(ts: seq<int>, lo: int, hi: int): nat {
    if ts == [] then 0 else Count(ts[..|ts| - 1], lo, hi) + (if lo <= ts[|ts| - 1] < hi then 1 else 0)
  }

  lemma {:induction false} CountConcat(a: seq<int>, b: seq<int>, lo: int, hi: int)
    ensures Count(a + b, lo, hi) == Count(a, lo, hi) + Count(b, lo, hi)
  {
    if b == [] {
      assert a + b == a;
    } else {
      assert (a + b)[..|a + b| - 1] == a + b[..|b| - 1];
      CountConcat(a, b[..|b| - 1], lo, hi);
    }
  }

  lemma {:induction false} CountAll(ts: seq<int>, lo: int, hi: int)
    requires forall i :: 0 <= i < |ts| ==> lo <= ts[i] < hi
    ensures Count(ts, lo, hi) == |ts|
  {
    if ts != [] { CountAll(ts[..|ts| - 1], lo, hi); }
  }

  lemma {:induction false} CountNone(ts: seq<int>, lo: int, hi: int)
    requires forall i :: 0 <= i < |ts| ==> !(lo <= ts[i] < hi)
    ensures Count(ts, lo, hi) == 0
  {
    if ts != [] { CountNone(ts[..|ts| - 1], lo, hi); }
  }
}
