/** tools/bench/host_perf.py: analyze_raw, its running counters proved to be counts over the rows. */
module RawAnalysis {
  import opened Wrappers
  import opened RawRun
  import opened RawLedger
  import Quantile

  // ---- settlement totals and injection cut ----

  datatype Totals = Totals(
    intended: nat, submitted: nat, notSubmitted: nat, responded: nat, dropped: nat, waiting: nat, unanswered: nat)

  function SettleRow(t: Totals, r: Row): Totals {
    if r.disposition.DNotSubmitted? then t.(notSubmitted := t.notSubmitted + 1)
    else
      var t := t.(submitted := t.submitted + 1);
      if r.disposition.DResponded? then t.(responded := t.responded + 1)
      else if r.disposition.DCallerDropped? then t.(dropped := t.dropped + 1)
      else t.(unanswered := t.unanswered + 1)
  }

  function CutRow(t: Totals, c: Setting, r: Row): Totals {
    if r.disposition.DNotSubmitted? then t.(notSubmitted := t.notSubmitted + 1)
    else
      var t := t.(submitted := t.submitted + 1);
      if r.disposition.DResponded? && Before(c, r.response) then t.(responded := t.responded + 1)
      else if r.disposition.DCallerDropped? && Before(c, r.drop) then t.(dropped := t.dropped + 1)
      else t.(waiting := t.waiting + 1)
  }

  ghost predicate SettlementMatches(c: Setting, rows: seq<Row>, population: nat, t: Totals)
    requires c.interval > 0
  {
    t == Totals(population, Count(c, rows, IsSubmitted), Count(c, rows, IsNotSubmitted), Count(c, rows, IsResponded),
                Count(c, rows, IsDropped), 0, Count(c, rows, IsUnanswered))
  }

  ghost predicate CutMatches(c: Setting, rows: seq<Row>, population: nat, t: Totals)
    requires c.interval > 0
  {
    t == Totals(population, Count(c, rows, IsSubmitted), Count(c, rows, IsNotSubmitted),
                Count(c, rows, Early(FResponded)), Count(c, rows, Early(FDropped)), Count(c, rows, CutWaiting), 0)
  }

  lemma CountStep(c: Setting, rows: seq<Row>, i: nat, f: Feature)
    requires c.interval > 0 && i < |rows|
    ensures Count(c, rows[..i + 1], f) == Count(c, rows[..i], f) + if Shows(c, rows[i], f) then 1 else 0
  {
    assert rows[..i + 1][..i] == rows[..i];
  }

  lemma SettleStep(c: Setting, rows: seq<Row>, i: nat, population: nat, t: Totals)
    requires c.interval > 0 && i < |rows| && Sound(c, rows[i]) && SettlementMatches(c, rows[..i], population, t)
    ensures SettlementMatches(c, rows[..i + 1], population, SettleRow(t, rows[i]))
  {
    hide Count;
    CountStep(c, rows, i, IsSubmitted);
    CountStep(c, rows, i, IsNotSubmitted);
    CountStep(c, rows, i, IsResponded);
    CountStep(c, rows, i, IsDropped);
    CountStep(c, rows, i, IsUnanswered);
  }

  lemma CutStep(c: Setting, rows: seq<Row>, i: nat, population: nat, t: Totals)
    requires c.interval > 0 && i < |rows| && Sound(c, rows[i]) && CutMatches(c, rows[..i], population, t)
    ensures CutMatches(c, rows[..i + 1], population, CutRow(t, c, rows[i]))
  {
    hide Count;
    CountStep(c, rows, i, IsSubmitted);
    CountStep(c, rows, i, IsNotSubmitted);
    CountStep(c, rows, i, Early(FResponded));
    CountStep(c, rows, i, Early(FDropped));
    CountStep(c, rows, i, CutWaiting);
  }

  // ---- report intervals ----

  datatype Bucket = Bucket(
    intended: nat, submitted: nat, notSubmitted: nat, started: nat, responded: nat, success: nat, rejected: nat,
    dropped: nat)

  function Get(b: Bucket, f: Field): nat {
    match f
    case FIntended => b.intended
    case FSubmitted => b.submitted
    case FNotSubmitted => b.notSubmitted
    case FStarted => b.started
    case FResponded => b.responded
    case FSuccess => b.success
    case FRejected => b.rejected
    case FDropped => b.dropped
  }

  function Inc(b: Bucket, f: Field): (r: Bucket)
    ensures forall g :: Get(r, g) == Get(b, g) + if g == f then 1 else 0
  {
    match f
    case FIntended => b.(intended := b.intended + 1)
    case FSubmitted => b.(submitted := b.submitted + 1)
    case FNotSubmitted => b.(notSubmitted := b.notSubmitted + 1)
    case FStarted => b.(started := b.started + 1)
    case FResponded => b.(responded := b.responded + 1)
    case FSuccess => b.(success := b.success + 1)
    case FRejected => b.(rejected := b.rejected + 1)
    case FDropped => b.(dropped := b.dropped + 1)
  }

  ghost predicate Hit(c: Setting, t: Option<int>, k: int)
    requires c.interval > 0
  {
    Before(c, t) && t.value / c.interval == k
  }

  /** bucket(t)[f] += 1, where a time at or after the cut belongs to no interval. */
  function Bump(bs: seq<Bucket>, c: Setting, f: Field, t: Option<int>): (r: seq<Bucket>)
    requires ValidSetting(c) && |bs| == c.cut / c.interval && (t.Some? ==> t.value >= 0)
    ensures |r| == |bs|
    ensures forall k, g :: 0 <= k < |bs| ==> Get(r[k], g) == Get(bs[k], g) + if g == f && Hit(c, t, k) then 1 else 0
  {
    hide Get;
    if Before(c, t) then
      BucketInRange(c, t.value);
      bs[t.value / c.interval := Inc(bs[t.value / c.interval], f)]
    else bs
  }

  /** The interval updates of one row. Each column gains exactly the bucket its time falls in. */
  method RecordRow(bs: seq<Bucket>, c: Setting, r: Row) returns (out: seq<Bucket>)
    requires ValidSetting(c) && |bs| == c.cut / c.interval && Sound(c, r)
    ensures |out| == |bs|
    ensures forall k, g :: 0 <= k < |bs| ==>
      Get(out[k], g) == Get(bs[k], g) + if Shows(c, r, InBucket(g, k)) then 1 else 0
  {
    hide Get;
    out := Bump(bs, c, FIntended, Some(r.intended));
    if r.disposition.DNotSubmitted? {
      out := Bump(out, c, FNotSubmitted, Some(r.intended));
    } else {
      out := Bump(out, c, FSubmitted, r.submitted);
      if r.started.Some? { out := Bump(out, c, FStarted, r.started); }
      if r.disposition.DResponded? {
        out := Bump(out, c, FResponded, r.response);
        if r.disposition.terminal.TSuccess? { out := Bump(out, c, FSuccess, r.response); }
        if r.disposition.terminal.TRejected? { out := Bump(out, c, FRejected, r.response); }
      } else if r.disposition.DCallerDropped? {
        out := Bump(out, c, FDropped, r.drop);
      }
    }
  }

  ghost predicate BucketsMatch(c: Setting, rows: seq<Row>, bs: seq<Bucket>)
    requires c.interval > 0
  {
    && |bs| == c.cut / c.interval
    && forall k, g :: 0 <= k < |bs| ==> Get(bs[k], g) == Count(c, rows, InBucket(g, k))
  }

  lemma BucketStep(c: Setting, rows: seq<Row>, i: nat, bs: seq<Bucket>, out: seq<Bucket>)
    requires c.interval > 0 && i < |rows| && BucketsMatch(c, rows[..i], bs) && |out| == |bs|
    requires forall k, g :: 0 <= k < |bs| ==>
      Get(out[k], g) == Get(bs[k], g) + if Shows(c, rows[i], InBucket(g, k)) then 1 else 0
    ensures BucketsMatch(c, rows[..i + 1], out)
  {
    hide Count, Get, Shows;
    forall k, g | 0 <= k < |out| ensures Get(out[k], g) == Count(c, rows[..i + 1], InBucket(g, k)) {
      CountStep(c, rows, i, InBucket(g, k));
    }
  }

  // ---- cohorts ----

  /** One cohort's entries in the per-population tables. */
  datatype Tally = Tally(intended: nat, success: nat, slo: nat, latencies: seq<int>, outcomes: map<Kind, nat>)

  const ZERO_OUTCOMES: map<Kind, nat> := map k: Kind | k in KINDS :: 0

  const NEW_TALLY := Tally(0, 0, 0, [], ZERO_OUTCOMES)

  ghost predicate FullTable(m: map<Kind, nat>) {
    forall k: Kind :: k in m
  }

  function TallyRow(t: Tally, c: Setting, r: Row): Tally
    requires KindOf(r) in t.outcomes && Sound(c, r)
  {
    var t := t.(intended := t.intended + 1, outcomes := t.outcomes[KindOf(r) := t.outcomes[KindOf(r)] + 1]);
    if KindOf(r).Success? then
      t.(success := t.success + 1, latencies := t.latencies + [r.response.value - r.intended],
         slo := t.slo + if MeetsSlo(c, r) then 1 else 0)
    else t
  }

  /** The response latencies of a cohort's successes, in row order. */
  ghost function Latencies(rows: seq<Row>, q: Cohort): seq<int> {
    if rows == [] then [] else Latencies(rows[..|rows| - 1], q) + LatencyOf(rows[|rows| - 1], q)
  }

  ghost function LatencyOf(r: Row, q: Cohort): seq<int> {
    if CohortOf(r) == q && KindOf(r).Success? && r.response.Some? then [r.response.value - r.intended] else []
  }

  lemma LatencyStep(rows: seq<Row>, i: nat, q: Cohort)
    requires i < |rows|
    ensures Latencies(rows[..i + 1], q) == Latencies(rows[..i], q) + LatencyOf(rows[i], q)
  {
    assert rows[..i + 1][..i] == rows[..i];
  }

  lemma SuccessResponded(c: Setting, r: Row)
    requires Sound(c, r) && KindOf(r).Success?
    ensures r.response.Some?
  {}

  lemma {:induction false} NoLatencies(c: Setting, rows: seq<Row>, q: Cohort)
    requires c.interval > 0 && Count(c, rows, InCohort(q)) == 0
    ensures Latencies(rows, q) == []
  {
    if rows != [] { NoLatencies(c, rows[..|rows| - 1], q); }
  }

  ghost predicate TallyMatches(c: Setting, rows: seq<Row>, q: Cohort, t: Tally)
    requires c.interval > 0
  {
    && FullTable(t.outcomes)
    && t.intended == Count(c, rows, InCohort(q))
    && t.success == Count(c, rows, CohortKind(q, Success)) == |t.latencies|
    && t.slo == Count(c, rows, CohortSlo(q)) && t.latencies == Latencies(rows, q)
    && forall k :: k in t.outcomes ==> t.outcomes[k] == Count(c, rows, CohortKind(q, k))
  }

  ghost predicate CohortsMatch(c: Setting, rows: seq<Row>, m: map<Cohort, Tally>)
    requires c.interval > 0
  {
    && (forall q :: q in m <==> Count(c, rows, InCohort(q)) > 0)
    && (forall q :: q in m ==> TallyMatches(c, rows, q, m[q]))
  }

  lemma TallyStep(c: Setting, rows: seq<Row>, i: nat, q: Cohort, t: Tally)
    requires c.interval > 0 && i < |rows| && Sound(c, rows[i]) && TallyMatches(c, rows[..i], q, t)
    ensures CohortOf(rows[i]) == q ==> TallyMatches(c, rows[..i + 1], q, TallyRow(t, c, rows[i]))
    ensures CohortOf(rows[i]) != q ==> TallyMatches(c, rows[..i + 1], q, t)
  {
    hide Count, KindOf, Latencies;
    LatencyStep(rows, i, q);
    if KindOf(rows[i]).Success? { SuccessResponded(c, rows[i]); }
    assert Latencies(rows[..i], q) + [] == Latencies(rows[..i], q);
    CountStep(c, rows, i, InCohort(q));
    CountStep(c, rows, i, CohortKind(q, Success));
    CountStep(c, rows, i, CohortSlo(q));
    forall k: Kind
      ensures Count(c, rows[..i + 1], CohortKind(q, k))
           == Count(c, rows[..i], CohortKind(q, k)) + if Shows(c, rows[i], CohortKind(q, k)) then 1 else 0
    {
      CountStep(c, rows, i, CohortKind(q, k));
    }
  }

  lemma {:induction false} CountMonotone(c: Setting, rows: seq<Row>, q: Cohort, f: Feature)
    requires c.interval > 0 && forall r :: Shows(c, r, f) ==> Shows(c, r, InCohort(q))
    ensures Count(c, rows, InCohort(q)) == 0 ==> Count(c, rows, f) == 0
  {
    hide Shows;
    if rows != [] { CountMonotone(c, rows[..|rows| - 1], q, f); }
  }

  /** A cohort that has not appeared is described by the empty tally. */
  lemma NewTally(c: Setting, rows: seq<Row>, q: Cohort)
    requires c.interval > 0 && Count(c, rows, InCohort(q)) == 0
    ensures TallyMatches(c, rows, q, NEW_TALLY)
  {
    hide Count, KindOf, Latencies;
    NoLatencies(c, rows, q);
    CountMonotone(c, rows, q, CohortSlo(q));
    forall k: Kind ensures Count(c, rows, CohortKind(q, k)) == 0 && k in ZERO_OUTCOMES && ZERO_OUTCOMES[k] == 0 {
      CountMonotone(c, rows, q, CohortKind(q, k));
      assert KINDS[Column(k)] == k;
    }
  }

  lemma CohortStep(c: Setting, rows: seq<Row>, i: nat, m: map<Cohort, Tally>, t: Tally)
    requires c.interval > 0 && i < |rows| && Sound(c, rows[i]) && CohortsMatch(c, rows[..i], m)
    requires t == if CohortOf(rows[i]) in m then m[CohortOf(rows[i])] else NEW_TALLY
    ensures FullTable(t.outcomes)
    ensures CohortsMatch(c, rows[..i + 1], m[CohortOf(rows[i]) := TallyRow(t, c, rows[i])])
  {
    hide Count, KindOf, TallyMatches, TallyRow;
    var here := CohortOf(rows[i]);
    if here !in m { NewTally(c, rows[..i], here); }
    assert TallyMatches(c, rows[..i], here, t);
    FullOf(c, rows[..i], here, t);
    TallyStep(c, rows, i, here, t);
    var next := m[here := TallyRow(t, c, rows[i])];
    forall q ensures (q in next <==> Count(c, rows[..i + 1], InCohort(q)) > 0)
                  && (q in next ==> TallyMatches(c, rows[..i + 1], q, next[q])) {
      CountStep(c, rows, i, InCohort(q));
      if q in m && q != here { TallyStep(c, rows, i, q, m[q]); }
    }
  }

  lemma FullOf(c: Setting, rows: seq<Row>, q: Cohort, t: Tally)
    requires c.interval > 0 && TallyMatches(c, rows, q, t)
    ensures FullTable(t.outcomes)
  {}

  // ---- per-class counters ----

  function Lookup(m: map<string, nat>, k: string): nat { if k in m then m[k] else 0 }

  ghost predicate ClassesMatch(c: Setting, rows: seq<Row>, starts: map<string, nat>, submits: map<string, nat>)
    requires c.interval > 0
  {
    forall name ::
      Lookup(starts, name) == Count(c, rows, ClassStarted(name))
          && Lookup(submits, name) == Count(c, rows, ClassSubmitted(name))
  }

  function Add(m: map<string, nat>, k: string): map<string, nat> { m[k := Lookup(m, k) + 1] }

  lemma ClassStep(c: Setting, rows: seq<Row>, i: nat, starts: map<string, nat>, submits: map<string, nat>)
    requires c.interval > 0 && i < |rows| && Sound(c, rows[i]) && ClassesMatch(c, rows[..i], starts, submits)
    ensures var r := rows[i];
            ClassesMatch(c, rows[..i + 1], if r.started.Some? then Add(starts, r.class_) else starts,
                         if r.disposition.DNotSubmitted? then submits else Add(submits, r.class_))
  {
    hide Count;
    forall name
      ensures Count(c, rows[..i + 1], ClassStarted(name))
           == Count(c, rows[..i], ClassStarted(name)) + if Shows(c, rows[i], ClassStarted(name)) then 1 else 0
      ensures Count(c, rows[..i + 1], ClassSubmitted(name))
           == Count(c, rows[..i], ClassSubmitted(name)) + if Shows(c, rows[i], ClassSubmitted(name)) then 1 else 0
    {
      CountStep(c, rows, i, ClassStarted(name));
      CountStep(c, rows, i, ClassSubmitted(name));
    }
  }

  // ---- the whole analysis ----

  datatype Class = Class(name: string, sloMs: nat)

  datatype ClassCounter = ClassCounter(admitted: nat, started: nat, terminated: nat, inflight: nat, queued: nat)

  datatype Scenario = Scenario(
    offers: seq<Offer>, classes: seq<Class>, injectionMs: nat, intervalMs: nat, settlementMs: nat)

  datatype Raw = Raw(
    rows: seq<Row>, injectionNs: nat, intervalNs: nat, cut: Totals, settlement: Totals,
    counters: map<string, ClassCounter>, finalCapabilities: map<string, nat>, drainOk: bool, conservationOk: bool)

  datatype Error =
    | PopulationDiffers | WindowMismatch | BadInterval | BadClasses | BadSlo | InRow(index: nat, error: RowError)
    | CutDiffers | SettlementDiffers | CounterCatalog | CounterMismatch | ResidualOwnership | NoCapabilities
    | NotDrained

  datatype Report = Report(settlement: Totals, cut: Totals, intervals: seq<Bucket>, cohorts: map<Cohort, Tally>)

  /** The report's counters are counts over the raw rows, which all passed their checks. */
  ghost predicate Describes(c: Setting, rows: seq<Row>, p: Report) {
    && ValidSetting(c) && AllSound(c, rows)
    && SettlementMatches(c, rows, |rows|, p.settlement)
    && CutMatches(c, rows, |rows|, p.cut)
    && BucketsMatch(c, rows, p.intervals)
    && CohortsMatch(c, rows, p.cohorts)
  }

  function SettingOf(s: Scenario): Setting {
    Setting(s.injectionMs * 1_000_000, s.intervalMs * 1_000_000,
            map x | x in s.classes :: x.name := SloNs(s.classes, x.name))
  }

  function SloNs(classes: seq<Class>, name: string): nat {
    if classes == [] then 0
    else if classes[0].name == name then classes[0].sloMs * 1_000_000
    else SloNs(classes[1..], name)
  }

  function CheckSetting(raw: Raw, s: Scenario): Option<Error> {
    if |raw.rows| != |s.offers| || s.offers == [] then Some(PopulationDiffers)
    else if raw.injectionNs == 0 || raw.injectionNs != s.injectionMs * 1_000_000 then Some(WindowMismatch)
    else if raw.intervalNs == 0 || raw.intervalNs != s.intervalMs * 1_000_000 || raw.injectionNs % raw.intervalNs != 0
            || raw.injectionNs / raw.intervalNs > 10_000 then Some(BadInterval)
    else if exists i, j :: 0 <= i < j < |s.classes| && s.classes[i].name == s.classes[j].name then Some(BadClasses)
    else if exists i :: 0 <= i < |s.classes| && (s.classes[i].sloMs == 0 || s.classes[i].sloMs > s.settlementMs) then
      Some(BadSlo)
    else None
  }

  predicate CounterOk(item: ClassCounter, starts: nat, submits: nat) {
    item.started == starts && item.started <= item.admitted == item.terminated <= submits
  }

  /** The checks after the row loop, against the counters the run itself recorded. */
  function CheckRecorded(raw: Raw, c: Setting, settlement: Totals, cut: Totals, starts: map<string, nat>,
                         submits: map<string, nat>): Option<Error> {
    if raw.cut != cut then Some(CutDiffers)
    else if raw.settlement != settlement then Some(SettlementDiffers)
    else if raw.counters.Keys != c.slo.Keys then Some(CounterCatalog)
    else if exists name :: name in raw.counters && !CounterOk(raw.counters[name], Lookup(starts, name),
                                                              Lookup(submits, name))
    then Some(CounterMismatch)
    else if exists name ::
              name in raw.counters && (raw.counters[name].inflight != 0 || raw.counters[name].queued != 0) then
      Some(ResidualOwnership)
    else if raw.finalCapabilities == map[] then Some(NoCapabilities)
    else if exists pool :: pool in raw.finalCapabilities && (pool == "" || raw.finalCapabilities[pool] != 0) then
      Some(ResidualOwnership)
    else if !raw.drainOk || !raw.conservationOk then Some(NotDrained)
    else None
  }

  /** Each of the first n rows passes its checks against its offer and the preceding arrival. */
  ghost predicate RowsAccepted(c: Setting, offers: seq<Offer>, rows: seq<Row>, n: nat)
    requires |offers| == |rows| && n <= |rows|
  {
    forall i :: 0 <= i < n ==> CheckRow(c, i, offers[i], rows[i], Arrival(offers, i - 1)).None?
  }

  function Arrival(offers: seq<Offer>, i: int): int
    requires i < |offers|
  {
    if i < 0 then -1 else offers[i].sendTime
  }

  /** The first rejected row decides; an accepted one is sound and extends the accepted rows. */
  lemma RowDecides(c: Setting, offers: seq<Offer>, rows: seq<Row>, i: nat)
    requires c.interval > 0 && |offers| == |rows| && i < |rows| && AllSound(c, rows[..i])
        && RowsAccepted(c, offers, rows, i)
    ensures var ok := CheckRow(c, i, offers[i], rows[i], Arrival(offers, i - 1)).None?;
            && (RowsAccepted(c, offers, rows, i + 1) <==> ok) && (!ok ==> !RowsAccepted(c, offers, rows, |rows|))
            && (ok ==> Sound(c, rows[i]) && AllSound(c, rows[..i + 1]))
  {}

  /** Everything the row loop carries along. */
  datatype Running = Running(report: Report, starts: map<string, nat>, submits: map<string, nat>)

  /** The running counters describe exactly the rows processed so far. */
  ghost predicate UpToDate(c: Setting, rows: seq<Row>, population: nat, g: Running)
    requires c.interval > 0
  {
    && SettlementMatches(c, rows, population, g.report.settlement)
    && CutMatches(c, rows, population, g.report.cut)
    && BucketsMatch(c, rows, g.report.intervals)
    && CohortsMatch(c, rows, g.report.cohorts)
    && ClassesMatch(c, rows, g.starts, g.submits)
  }

  /** The counter updates of one accepted row. */
  method CountRow(c: Setting, rows: seq<Row>, i: nat, ghost population: nat, before: Running) returns (after: Running)
    requires ValidSetting(c) && i < |rows| && Sound(c, rows[i]) && UpToDate(c, rows[..i], population, before)
    ensures UpToDate(c, rows[..i + 1], population, after)
  {
    hide Count, Sound, SettlementMatches, CutMatches, CohortsMatch, ClassesMatch;
    var row, p := rows[i], before.report;
    SettleStep(c, rows, i, population, p.settlement);
    CutStep(c, rows, i, population, p.cut);
    var intervals := RecordRow(p.intervals, c, row);
    BucketStep(c, rows, i, p.intervals, intervals);
    var cohort := CohortOf(row);
    var tally := if cohort in p.cohorts then p.cohorts[cohort] else NEW_TALLY;
    CohortStep(c, rows, i, p.cohorts, tally);
    ClassStep(c, rows, i, before.starts, before.submits);
    after := Running(
      Report(SettleRow(p.settlement, row), CutRow(p.cut, c, row), intervals,
             p.cohorts[cohort := TallyRow(tally, c, row)]),
      if row.started.Some? then Add(before.starts, row.class_) else before.starts,
      if row.disposition.DNotSubmitted? then before.submits else Add(before.submits, row.class_));
  }

  /** The row loop. */
  method CountRows(c: Setting, offers: seq<Offer>, rows: seq<Row>) returns (r: Result<Running, Error>)
    requires ValidSetting(c) && |offers| == |rows|
    ensures r.Ok? <==> RowsAccepted(c, offers, rows, |rows|)
    ensures r.Ok? ==> Describes(c, rows, r.value.report) && ClassesMatch(c, rows, r.value.starts, r.value.submits)
  {
    hide Sound, CheckRow, UpToDate, Describes, ClassesMatch, Fresh, AllSound, RowsAccepted;
    NothingAccepted(c, offers, rows);
    var g := Fresh(c, |offers|);
    NothingCounted(c, |offers|);
    assert rows[..0] == [];
    var last := -1;
    var i := 0;
    while i < |rows|
      invariant 0 <= i <= |rows| && AllSound(c, rows[..i]) && UpToDate(c, rows[..i], |offers|, g)
      invariant RowsAccepted(c, offers, rows, i) && last == Arrival(offers, i - 1)
    {
      var error := CheckRow(c, i, offers[i], rows[i], last);
      RowDecides(c, offers, rows, i);
      if error.Some? { return Err(InRow(i, error.value)); }
      g := CountRow(c, rows, i, |offers|, g);
      last := offers[i].sendTime;
      i := i + 1;
    }
    assert rows[..i] == rows;
    AllCounted(c, rows, g);
    r := Ok(g);
  }

  lemma NothingAccepted(c: Setting, offers: seq<Offer>, rows: seq<Row>)
    requires |offers| == |rows|
    ensures AllSound(c, []) && RowsAccepted(c, offers, rows, 0)
  {}

  /** The counters before the first row. */
  function Fresh(c: Setting, population: nat): Running
    requires c.interval > 0
  {
    var empty := Totals(population, 0, 0, 0, 0, 0, 0);
    var intervals := seq(c.cut / c.interval, _ => Bucket(0, 0, 0, 0, 0, 0, 0, 0));
    Running(Report(empty, empty, intervals, map[]), map[], map[])
  }

  lemma NothingCounted(c: Setting, population: nat)
    requires ValidSetting(c)
    ensures UpToDate(c, [], population, Fresh(c, population))
  {}

  lemma AllCounted(c: Setting, rows: seq<Row>, g: Running)
    requires ValidSetting(c) && AllSound(c, rows) && UpToDate(c, rows, |rows|, g)
    ensures Describes(c, rows, g.report) && ClassesMatch(c, rows, g.starts, g.submits)
  {}

  /** Every check passes, and what the run recorded about itself are the counts over its rows. */
  ghost predicate Accepted(raw: Raw, s: Scenario) {
    var c := SettingOf(s);
    && CheckSetting(raw, s).None?
    && RowsAccepted(c, s.offers, raw.rows, |raw.rows|)
    && SettlementMatches(c, raw.rows, |raw.rows|, raw.settlement)
    && CutMatches(c, raw.rows, |raw.rows|, raw.cut)
    && CountersMatch(c, raw.rows, raw.counters)
    && Released(raw)
  }

  /** Nothing is left in flight, queued or held, and the run drained. */
  ghost predicate Released(raw: Raw) {
    && (forall name :: name in raw.counters ==> raw.counters[name].inflight == 0 && raw.counters[name].queued == 0)
    && raw.finalCapabilities != map[]
    && (forall pool :: pool in raw.finalCapabilities ==> pool != "" && raw.finalCapabilities[pool] == 0)
    && raw.drainOk && raw.conservationOk
  }

  /**
   * analyze_raw. It accepts exactly the runs whose rows all pass and whose own records are the
   * counts over those rows; every counter family of its report is a count over the same rows.
   */
  method AnalyzeRaw(raw: Raw, s: Scenario) returns (r: Result<Report, Error>)
    ensures r.Ok? <==> Accepted(raw, s)
    ensures r.Ok? ==> Describes(SettingOf(s), raw.rows, r.value)
    ensures r.Ok? ==> raw.settlement == r.value.settlement && raw.cut == r.value.cut
  {
    hide Describes, ClassesMatch, RowsAccepted, SettlementMatches, CutMatches, CountersMatch, CheckRecorded;
    var error := CheckSetting(raw, s);
    if error.Some? { return Err(error.value); }
    var c := SettingOf(s);
    var counted := CountRows(c, s.offers, raw.rows);
    if counted.Err? { return Err(counted.error); }
    var g := counted.value;
    RecordedExactly(c, raw, g);
    error := CheckRecorded(raw, c, g.report.settlement, g.report.cut, g.starts, g.submits);
    if error.Some? { return Err(error.value); }
    r := Ok(g.report);
  }

  /** The checks after the row loop compare the run's own records with the counts. */
  lemma RecordedExactly(c: Setting, raw: Raw, g: Running)
    requires Describes(c, raw.rows, g.report) && ClassesMatch(c, raw.rows, g.starts, g.submits)
    ensures CheckRecorded(raw, c, g.report.settlement, g.report.cut, g.starts, g.submits).None? <==>
            SettlementMatches(c, raw.rows, |raw.rows|, raw.settlement) && CutMatches(c, raw.rows, |raw.rows|, raw.cut)
            && CountersMatch(c, raw.rows, raw.counters) && Released(raw)
    ensures CheckRecorded(raw, c, g.report.settlement, g.report.cut, g.starts, g.submits).None? ==>
              raw.settlement == g.report.settlement && raw.cut == g.report.cut
  {}

  /** The run's own per-class counters agree with the rows. */
  ghost predicate CountersMatch(c: Setting, rows: seq<Row>, counters: map<string, ClassCounter>) {
    && c.interval > 0 && counters.Keys == c.slo.Keys
    && forall name :: name in counters ==>
         CounterOk(counters[name], Count(c, rows, ClassStarted(name)), Count(c, rows, ClassSubmitted(name)))
  }

  // ---- conservation ----

  /** A report column summed over its first n intervals. */
  ghost function IntervalSum(bs: seq<Bucket>, f: Field, n: nat): nat
    requires n <= |bs|
  {
    if n == 0 then 0 else IntervalSum(bs, f, n - 1) + Get(bs[n - 1], f)
  }

  lemma {:induction false} IntervalSumIsColumnSum(c: Setting, rows: seq<Row>, bs: seq<Bucket>, f: Field, n: nat)
    requires c.interval > 0 && BucketsMatch(c, rows, bs) && n <= |bs|
    ensures IntervalSum(bs, f, n) == ColumnSum(c, rows, f, n)
  {
    hide Count, Get;
    if n > 0 { IntervalSumIsColumnSum(c, rows, bs, f, n - 1); }
  }

  /** Settlement and cut equations: the guard that re-checks the first pair can never fire. */
  lemma SettlementConserved(c: Setting, rows: seq<Row>, p: Report)
    requires Describes(c, rows, p)
    ensures p.settlement.intended == p.settlement.submitted + p.settlement.notSubmitted
    ensures p.settlement.submitted == p.settlement.responded + p.settlement.dropped + p.settlement.unanswered
    ensures p.cut.intended == p.cut.submitted + p.cut.notSubmitted
    ensures p.cut.submitted == p.cut.responded + p.cut.dropped + p.cut.waiting
  {
    hide Count, Sound, BucketsMatch, CohortsMatch;
    SettlementPartition(c, rows);
    CutPartition(c, rows);
  }

  lemma {:induction false} EveryRowEarly(c: Setting, rows: seq<Row>)
    requires c.interval > 0 && AllSound(c, rows)
    ensures Count(c, rows, Early(FIntended)) == |rows|
    ensures Count(c, rows, Early(FSubmitted)) == Count(c, rows, IsSubmitted)
    ensures Count(c, rows, Early(FNotSubmitted)) == Count(c, rows, IsNotSubmitted)
  {
    if rows != [] {
      EveryRowEarly(c, rows[..|rows| - 1]);
      assert Sound(c, rows[|rows| - 1]);
    }
  }

  /** Summed over the intervals, each column reproduces its count at the injection cut. */
  lemma IntervalsConserved(c: Setting, rows: seq<Row>, p: Report)
    requires Describes(c, rows, p)
    ensures var n := |p.intervals|;
            && IntervalSum(p.intervals, FIntended, n) == p.cut.intended
            && IntervalSum(p.intervals, FSubmitted, n) == p.cut.submitted
            && IntervalSum(p.intervals, FNotSubmitted, n) == p.cut.notSubmitted
            && IntervalSum(p.intervals, FResponded, n) == p.cut.responded
            && IntervalSum(p.intervals, FDropped, n) == p.cut.dropped
  {
    hide Count, Sound, CohortsMatch, SettlementMatches;
    EveryRowEarly(c, rows);
    ColumnIs(c, rows, p.intervals, FIntended);
    ColumnIs(c, rows, p.intervals, FSubmitted);
    ColumnIs(c, rows, p.intervals, FNotSubmitted);
    ColumnIs(c, rows, p.intervals, FResponded);
    ColumnIs(c, rows, p.intervals, FDropped);
  }

  lemma ColumnIs(c: Setting, rows: seq<Row>, bs: seq<Bucket>, f: Field)
    requires ValidSetting(c) && AllSound(c, rows) && BucketsMatch(c, rows, bs)
    ensures IntervalSum(bs, f, |bs|) == Count(c, rows, Early(f))
  {
    hide Count, Sound;
    IntervalSumIsColumnSum(c, rows, bs, f, |bs|);
    ColumnTotals(c, rows, f);
  }

  /** Inside an interval, successes and rejections are disjoint parts of the responses. */
  lemma IntervalResponses(c: Setting, rows: seq<Row>, p: Report, k: nat)
    requires Describes(c, rows, p) && k < |p.intervals|
    ensures p.intervals[k].success + p.intervals[k].rejected <= p.intervals[k].responded
  {
    hide CohortsMatch, SettlementMatches, CutMatches, Count;
    assert Get(p.intervals[k], FSuccess) == Count(c, rows, InBucket(FSuccess, k));
    assert Get(p.intervals[k], FRejected) == Count(c, rows, InBucket(FRejected, k));
    assert Get(p.intervals[k], FResponded) == Count(c, rows, InBucket(FResponded, k));
    DisjointResponses(c, rows, k);
  }

  lemma {:induction false} DisjointResponses(c: Setting, rows: seq<Row>, k: int)
    requires c.interval > 0
    ensures Count(c, rows, InBucket(FSuccess, k)) + Count(c, rows, InBucket(FRejected, k))
         <= Count(c, rows, InBucket(FResponded, k))
  {
    if rows != [] { DisjointResponses(c, rows[..|rows| - 1], k); }
  }

  /** The outcome columns of one cohort, added up. */
  ghost function OutcomeSum(m: map<Kind, nat>, n: nat): nat
    requires n <= |KINDS| && FullTable(m)
  {
    if n == 0 then 0 else OutcomeSum(m, n - 1) + m[KINDS[n - 1]]
  }

  lemma {:induction false} OutcomeSumIsKindTotal(c: Setting, rows: seq<Row>, q: Cohort, t: Tally, n: nat)
    requires c.interval > 0 && TallyMatches(c, rows, q, t) && n <= |KINDS|
    ensures OutcomeSum(t.outcomes, n) == KindTotal(c, rows, q, n)
  {
    hide Count, KindOf;
    if n > 0 {
      OutcomeSumIsKindTotal(c, rows, q, t, n - 1);
      assert KINDS[n - 1] in t.outcomes;
    }
  }

  /**
   * One cohort: its nine outcomes sum to its intended rows, SLO successes are among the
   * successes and these among the intended rows, and it has one latency per success.
   */
  lemma CohortConserved(c: Setting, rows: seq<Row>, p: Report, q: Cohort)
    requires Describes(c, rows, p) && q in p.cohorts
    ensures var t := p.cohorts[q];
            && FullTable(t.outcomes) && OutcomeSum(t.outcomes, |KINDS|) == t.intended
            && t.slo <= t.success <= t.intended && t.success == t.outcomes[Success] == |t.latencies|
            && t.intended > 0
  {
    hide Count, Sound, KindOf, SettlementMatches, CutMatches, BucketsMatch;
    var t := p.cohorts[q];
    assert TallyMatches(c, rows, q, t);
    assert Success in t.outcomes;
    OutcomeSumIsKindTotal(c, rows, q, t, |KINDS|);
    CohortOutcomesSum(c, rows, q);
    CohortGoodputOrder(c, rows, q);
  }

  ghost function IntendedSum(m: map<Cohort, Tally>, cohorts: seq<Cohort>): nat
    requires forall i :: 0 <= i < |cohorts| ==> cohorts[i] in m
  {
    if cohorts == [] then 0 else m[cohorts[0]].intended + IntendedSum(m, cohorts[1..])
  }

  /** Listed once each, the cohorts of a report account for every intended row. */
  lemma CohortsConserved(c: Setting, rows: seq<Row>, p: Report, listed: seq<Cohort>)
    requires Describes(c, rows, p) && Distinct(listed) && forall q :: q in listed <==> q in p.cohorts
    ensures IntendedSum(p.cohorts, listed) == p.settlement.intended
  {
    hide Count, Sound, KindOf, CutMatches, BucketsMatch;
    forall i | 0 <= i < |rows| ensures CohortOf(rows[i]) in listed {
      CountedSomewhere(c, rows, i);
    }
    CohortsPartitionRows(c, rows, listed);
    IntendedSumIs(c, rows, p.cohorts, listed);
  }

  lemma {:induction false} CountedSomewhere(c: Setting, rows: seq<Row>, i: nat)
    requires c.interval > 0 && i < |rows|
    ensures Count(c, rows, InCohort(CohortOf(rows[i]))) > 0
  {
    if i < |rows| - 1 { CountedSomewhere(c, rows[..|rows| - 1], i); }
  }

  lemma {:induction false} IntendedSumIs(c: Setting, rows: seq<Row>, m: map<Cohort, Tally>, listed: seq<Cohort>)
    requires c.interval > 0 && CohortsMatch(c, rows, m) && forall i :: 0 <= i < |listed| ==> listed[i] in m
    ensures IntendedSum(m, listed) == SumOver(c, rows, listed)
  {
    hide Count;
    if listed != [] {
      assert TallyMatches(c, rows, listed[0], m[listed[0]]);
      IntendedSumIs(c, rows, m, listed[1..]);
    }
  }

  /** The reported latency quantiles of a cohort are ordered. */
  lemma CohortQuantilesOrdered(t: Tally)
    requires t.latencies != []
    ensures Quantile.Nearest(t.latencies, 0.50).value <= Quantile.Nearest(t.latencies, 0.95).value
         <= Quantile.Nearest(t.latencies, 0.99).value
  {
    Quantile.NearestMonotone(t.latencies, 0.50, 0.95);
    Quantile.NearestMonotone(t.latencies, 0.95, 0.99);
  }
}
