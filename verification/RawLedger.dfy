/** tools/bench/host_perf.py: the counter families of analyze_raw, as counts over the same rows. */
module RawLedger {
  import opened Wrappers
  import opened RawRun

  // ---- counting rows by what they show ----

  /** The columns of a report interval. */
  datatype Field = FIntended | FSubmitted | FNotSubmitted | FStarted | FResponded | FSuccess | FRejected | FDropped

  /** When a row shows up in a column, if it does. */
  function TimeOf(r: Row, f: Field): Option<int> {
    match f
    case FIntended => Some(r.intended)
    case FSubmitted => r.submitted
    case FNotSubmitted => if r.disposition.DNotSubmitted? then Some(r.intended) else None
    case FStarted => r.started
    case FResponded => r.response
    case FSuccess => if KindOf(r).Success? then r.response else None
    case FRejected => if KindOf(r).Rejected? then r.response else None
    case FDropped => r.drop
  }

  datatype Feature =
    | Any | IsSubmitted | IsNotSubmitted | IsResponded | IsDropped | IsUnanswered
    | CutWaiting
    | Early(field: Field)
    | InBucket(field: Field, k: int)
    | InCohort(cohort: Cohort)
    | CohortKind(cohort: Cohort, kind: Kind)
    | CohortSlo(cohort: Cohort)
    | ClassStarted(name: string)
    | ClassSubmitted(name: string)

  predicate Before(c: Setting, t: Option<int>) { t.Some? && t.value < c.cut }

  predicate MeetsSlo(c: Setting, r: Row) {
    KindOf(r).Success? && r.response.Some? && r.class_ in c.slo && r.response.value - r.intended <= c.slo[r.class_]
  }

  predicate Shows(c: Setting, r: Row, f: Feature)
    requires c.interval > 0
  {
    match f
    case Any => true
    case IsSubmitted => !r.disposition.DNotSubmitted?
    case IsNotSubmitted => r.disposition.DNotSubmitted?
    case IsResponded => r.disposition.DResponded?
    case IsDropped => r.disposition.DCallerDropped?
    case IsUnanswered => r.disposition.DUnanswered?
    case CutWaiting =>
      !r.disposition.DNotSubmitted? && !Before(c, r.response) && !Before(c, r.drop)
    case Early(field) => Before(c, TimeOf(r, field))
    case InBucket(field, k) => Before(c, TimeOf(r, field)) && TimeOf(r, field).value / c.interval == k
    case InCohort(cohort) => CohortOf(r) == cohort
    case CohortKind(cohort, kind) => CohortOf(r) == cohort && KindOf(r) == kind
    case CohortSlo(cohort) => CohortOf(r) == cohort && MeetsSlo(c, r)
    case ClassStarted(name) => r.class_ == name && r.started.Some?
    case ClassSubmitted(name) => r.class_ == name && !r.disposition.DNotSubmitted?
  }

  /** How many rows show a feature. */
  ghost function Count(c: Setting, rows: seq<Row>, f: Feature): nat
    requires c.interval > 0
  {
    if rows == [] then 0
    else Count(c, rows[..|rows| - 1], f) + if Shows(c, rows[|rows| - 1], f) then 1 else 0
  }

  ghost predicate AllSound(c: Setting, rows: seq<Row>) {
    forall i :: 0 <= i < |rows| ==> Sound(c, rows[i])
  }

  lemma {:induction false} CountImplies(c: Setting, rows: seq<Row>, a: Feature, b: Feature)
    requires c.interval > 0 && AllSound(c, rows)
    requires forall r :: Sound(c, r) && Shows(c, r, a) ==> Shows(c, r, b)
    ensures Count(c, rows, a) <= Count(c, rows, b)
  {
    hide Sound, Shows;
    if rows != [] {
      CountImplies(c, rows[..|rows| - 1], a, b);
      assert Sound(c, rows[|rows| - 1]);
    }
  }

  // ---- settlement and cut equations ----

  /** Every intended row is settled exactly once. */
  lemma SettlementPartition(c: Setting, rows: seq<Row>)
    requires c.interval > 0 && AllSound(c, rows)
    ensures |rows| == Count(c, rows, IsSubmitted) + Count(c, rows, IsNotSubmitted)
    ensures Count(c, rows, IsSubmitted) ==
            Count(c, rows, IsResponded) + Count(c, rows, IsDropped) + Count(c, rows, IsUnanswered)
  {}

  /** At the injection cut every submitted row has responded, was dropped, or still waits. */
  lemma CutPartition(c: Setting, rows: seq<Row>)
    requires c.interval > 0 && AllSound(c, rows)
    ensures Count(c, rows, IsSubmitted) ==
            Count(c, rows, Early(FResponded)) + Count(c, rows, Early(FDropped)) + Count(c, rows, CutWaiting)
  {}

  // ---- interval buckets ----

  ghost function Indicator(c: Setting, r: Row, f: Feature): nat
    requires c.interval > 0
  {
    if Shows(c, r, f) then 1 else 0
  }

  /** The total of a column over the first n intervals. */
  ghost function ColumnSum(c: Setting, rows: seq<Row>, field: Field, n: nat): nat
    requires c.interval > 0
  {
    if n == 0 then 0 else ColumnSum(c, rows, field, n - 1) + Count(c, rows, InBucket(field, n - 1))
  }

  ghost function RowSum(c: Setting, r: Row, field: Field, n: nat): nat
    requires c.interval > 0
  {
    if n == 0 then 0 else RowSum(c, r, field, n - 1) + Indicator(c, r, InBucket(field, n - 1))
  }

  lemma {:induction false} ColumnSumSnoc(c: Setting, rows: seq<Row>, field: Field, n: nat)
    requires c.interval > 0 && rows != []
    ensures ColumnSum(c, rows, field, n) ==
            ColumnSum(c, rows[..|rows| - 1], field, n) + RowSum(c, rows[|rows| - 1], field, n)
  {
    hide Shows;
    if n > 0 { ColumnSumSnoc(c, rows, field, n - 1); }
  }

  lemma {:induction false} ColumnSumEmpty(c: Setting, field: Field, n: nat)
    requires c.interval > 0
    ensures ColumnSum(c, [], field, n) == 0
  {
    if n > 0 { ColumnSumEmpty(c, field, n - 1); }
  }

  /** A row falls into exactly one of the first n buckets iff its bucket number is below n. */
  lemma {:induction false} RowSumIsOne(c: Setting, r: Row, field: Field, n: nat)
    requires c.interval > 0 && (Shows(c, r, Early(field)) ==> TimeOf(r, field).value >= 0)
    ensures RowSum(c, r, field, n) ==
            if Shows(c, r, Early(field)) && TimeOf(r, field).value / c.interval < n then 1 else 0
  {
    if n > 0 { RowSumIsOne(c, r, field, n - 1); }
  }

  /** The bucket number of any time before the cut is a valid index. */
  lemma BucketInRange(c: Setting, t: int)
    requires ValidSetting(c) && 0 <= t < c.cut
    ensures 0 <= t / c.interval < c.cut / c.interval
  {}

  lemma TimesNonNegative(c: Setting, r: Row, field: Field)
    requires Sound(c, r)
    ensures TimeOf(r, field).Some? ==> TimeOf(r, field).value >= 0
  {}

  /** Summed over all intervals, a column counts exactly the rows that show it before the cut. */
  lemma {:induction false} ColumnTotals(c: Setting, rows: seq<Row>, field: Field)
    requires ValidSetting(c) && AllSound(c, rows)
    ensures ColumnSum(c, rows, field, c.cut / c.interval) == Count(c, rows, Early(field))
  {
    hide Sound, Shows;
    var n := c.cut / c.interval;
    if rows == [] {
      ColumnSumEmpty(c, field, n);
    } else {
      var r := rows[|rows| - 1];
      ColumnTotals(c, rows[..|rows| - 1], field);
      ColumnSumSnoc(c, rows, field, n);
      assert Sound(c, r);
      RowInColumn(c, r, field);
    }
  }

  lemma RowInColumn(c: Setting, r: Row, field: Field)
    requires ValidSetting(c) && Sound(c, r)
    ensures RowSum(c, r, field, c.cut / c.interval) == if Shows(c, r, Early(field)) then 1 else 0
  {
    TimesNonNegative(c, r, field);
    RowSumIsOne(c, r, field, c.cut / c.interval);
    if Shows(c, r, Early(field)) { BucketInRange(c, TimeOf(r, field).value); }
  }

  // ---- cohorts ----

  const KINDS: seq<Kind> :=
    [Success, Rejected, Deadline, Cancelled, TaskError, GovernorError, CallerDropped, NotSubmitted, Unanswered]

  /** The first n outcome columns of a cohort, added up. */
  ghost function KindTotal(c: Setting, rows: seq<Row>, cohort: Cohort, n: nat): nat
    requires c.interval > 0 && n <= |KINDS|
  {
    if n == 0 then 0 else KindTotal(c, rows, cohort, n - 1) + Count(c, rows, CohortKind(cohort, KINDS[n - 1]))
  }

  ghost function RowKindTotal(r: Row, cohort: Cohort, n: nat): nat
    requires n <= |KINDS|
  {
    if n == 0 then 0
    else RowKindTotal(r, cohort, n - 1) + if CohortOf(r) == cohort && KindOf(r) == KINDS[n - 1] then 1 else 0
  }

  lemma {:induction false} KindTotalSnoc(c: Setting, rows: seq<Row>, cohort: Cohort, n: nat)
    requires c.interval > 0 && rows != [] && n <= |KINDS|
    ensures KindTotal(c, rows, cohort, n) ==
            KindTotal(c, rows[..|rows| - 1], cohort, n) + RowKindTotal(rows[|rows| - 1], cohort, n)
  {
    hide KindOf;
    if n > 0 { KindTotalSnoc(c, rows, cohort, n - 1); }
  }

  lemma {:induction false} KindTotalEmpty(c: Setting, cohort: Cohort, n: nat)
    requires c.interval > 0 && n <= |KINDS|
    ensures KindTotal(c, [], cohort, n) == 0
  {
    if n > 0 { KindTotalEmpty(c, cohort, n - 1); }
  }

  /** The position of a kind among the columns: every kind has exactly one. */
  function Column(k: Kind): (n: nat)
    ensures n < |KINDS| && KINDS[n] == k
    ensures forall i :: 0 <= i < |KINDS| && KINDS[i] == k ==> i == n
  {
    match k
    case Success => 0 case Rejected => 1 case Deadline => 2 case Cancelled => 3 case TaskError => 4
    case GovernorError => 5 case CallerDropped => 6 case NotSubmitted => 7 case Unanswered => 8
  }

  lemma {:induction false} RowHasOneKind(r: Row, cohort: Cohort, n: nat)
    requires n <= |KINDS|
    ensures RowKindTotal(r, cohort, n) == if CohortOf(r) == cohort && Column(KindOf(r)) < n then 1 else 0
  {
    hide KindOf;
    if n > 0 {
      RowHasOneKind(r, cohort, n - 1);
      assert KindOf(r) == KINDS[n - 1] <==> Column(KindOf(r)) == n - 1;
    }
  }

  /** The nine outcome columns of a cohort add up to its intended rows. */
  lemma {:induction false} CohortOutcomesSum(c: Setting, rows: seq<Row>, cohort: Cohort)
    requires c.interval > 0
    ensures KindTotal(c, rows, cohort, |KINDS|) == Count(c, rows, InCohort(cohort))
  {
    hide KindOf;
    if rows == [] {
      KindTotalEmpty(c, cohort, |KINDS|);
    } else {
      CohortOutcomesSum(c, rows[..|rows| - 1], cohort);
      KindTotalSnoc(c, rows, cohort, |KINDS|);
      RowHasOneKind(rows[|rows| - 1], cohort, |KINDS|);
    }
  }

  /** SLO successes are successes, and successes are intended rows. */
  lemma CohortGoodputOrder(c: Setting, rows: seq<Row>, cohort: Cohort)
    requires c.interval > 0 && AllSound(c, rows)
    ensures Count(c, rows, CohortSlo(cohort)) <= Count(c, rows, CohortKind(cohort, Success))
    ensures Count(c, rows, CohortKind(cohort, Success)) <= Count(c, rows, InCohort(cohort))
  {
    CountImplies(c, rows, CohortSlo(cohort), CohortKind(cohort, Success));
    CountImplies(c, rows, CohortKind(cohort, Success), InCohort(cohort));
  }

  // ---- cohorts partition the rows ----

  ghost function SumOver(c: Setting, rows: seq<Row>, cohorts: seq<Cohort>): nat
    requires c.interval > 0
  {
    if cohorts == [] then 0 else Count(c, rows, InCohort(cohorts[0])) + SumOver(c, rows, cohorts[1..])
  }

  ghost predicate Distinct(cohorts: seq<Cohort>) {
    forall i, j :: 0 <= i < j < |cohorts| ==> cohorts[i] != cohorts[j]
  }

  lemma {:induction false} SumOverSnoc(c: Setting, rows: seq<Row>, cohorts: seq<Cohort>)
    requires c.interval > 0 && rows != [] && Distinct(cohorts)
    ensures SumOver(c, rows, cohorts) ==
            SumOver(c, rows[..|rows| - 1], cohorts) + if CohortOf(rows[|rows| - 1]) in cohorts then 1 else 0
  {
    if cohorts != [] { SumOverSnoc(c, rows, cohorts[1..]); }
  }

  lemma {:induction false} SumOverEmpty(c: Setting, cohorts: seq<Cohort>)
    requires c.interval > 0
    ensures SumOver(c, [], cohorts) == 0
  {
    if cohorts != [] { SumOverEmpty(c, cohorts[1..]); }
  }

  /** However the cohorts are listed, their intended counts sum to the whole population. */
  lemma {:induction false} CohortsPartitionRows(c: Setting, rows: seq<Row>, cohorts: seq<Cohort>)
    requires c.interval > 0 && Distinct(cohorts) && forall i :: 0 <= i < |rows| ==> CohortOf(rows[i]) in cohorts
    ensures SumOver(c, rows, cohorts) == |rows|
  {
    if rows == [] {
      SumOverEmpty(c, cohorts);
    } else {
      CohortsPartitionRows(c, rows[..|rows| - 1], cohorts);
      SumOverSnoc(c, rows, cohorts);
    }
  }
}
