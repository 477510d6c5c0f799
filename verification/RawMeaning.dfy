/** tools/bench/host_perf.py: what analyze_raw accepts and what its report says, spelled out over the rows. */
module RawMeaning {
  import opened Wrappers
  import opened RawRun
  import opened RawLedger
  import opened RawAnalysis

  // ---- accepted rows and settings ----

  /** A time that, if there is one, is no earlier than another. */
  predicate NotBefore(t: Option<int>, from: int) { t.Some? ==> t.value >= from }

  /** A row that fits its offer, and whose times and disposition fit together. */
  predicate GoodRow(c: Setting, index: nat, o: Offer, r: Row, last: int) {
    && 0 <= o.sendTime < c.cut && last <= o.sendTime
    && r.id == index && r.class_ == o.class_ && r.path == o.path && r.intended == o.sendTime && r.lag >= 0
    && r.class_ in c.slo && r.path in {"io", "blocking", "cpu", "requested_stack_blocking", "requested_stack_async"}
    && match r.disposition
       case DInvalid => false
       case DNotSubmitted =>
         r.submitted.None? && r.started.None? && r.finished.None? && r.response.None? && r.drop.None?
       case DResponded(terminal) =>
         Submitted(c, r) && r.drop.None? && r.response.Some? && r.response.value >= r.submitted.value
         && GoodTerminal(r, terminal)
       case DCallerDropped =>
         Submitted(c, r) && r.response.None? && r.drop.Some? && r.drop.value >= r.submitted.value
       case DUnanswered => Submitted(c, r) && r.response.None? && r.drop.None?
  }

  /** Submitted inside the window, no earlier than intended plus the producer's lag; then started, then finished. */
  predicate Submitted(c: Setting, r: Row) {
    && r.submitted.Some? && r.intended + r.lag <= r.submitted.value < c.cut
    && NotBefore(r.started, r.submitted.value)
    && (r.finished.Some? ==> r.started.Some? && r.started.value <= r.finished.value)
  }

  /** Rejected work was not started, and successful work was finished before its response. */
  predicate GoodTerminal(r: Row, terminal: Terminal)
    requires r.response.Some?
  {
    match terminal
    case TUntyped => false
    case TRejected(typed) => typed && r.started.None?
    case TSuccess => r.finished.Some? && r.finished.value <= r.response.value
    case _ => true
  }

  /** The checks of a row accept exactly the good ones. */
  lemma RowExactly(c: Setting, index: nat, o: Offer, r: Row, last: int)
    ensures CheckRow(c, index, o, r, last).None? <==> GoodRow(c, index, o, r, last)
  {}

  /** The window and the interval agree with the scenario, classes are named once, and every SLO fits the settlement. */
  ghost predicate GoodSetting(raw: Raw, s: Scenario) {
    && |raw.rows| == |s.offers| > 0
    && raw.injectionNs == s.injectionMs * 1_000_000 > 0 && raw.intervalNs == s.intervalMs * 1_000_000 > 0
    && (exists n :: 0 < n <= 10_000 && raw.injectionNs == n * raw.intervalNs)
    && (forall i, j :: 0 <= i < j < |s.classes| ==> s.classes[i].name != s.classes[j].name)
    && (forall i :: 0 <= i < |s.classes| ==> 0 < s.classes[i].sloMs <= s.settlementMs)
  }

  lemma SettingExactly(raw: Raw, s: Scenario)
    ensures CheckSetting(raw, s).None? <==> GoodSetting(raw, s)
  {
    if raw.intervalNs > 0 {
      var n := raw.injectionNs / raw.intervalNs;
      Multiples(raw.injectionNs, raw.intervalNs, n);
      if GoodSetting(raw, s) {
        var m :| 0 < m <= 10_000 && raw.injectionNs == m * raw.intervalNs;
        Multiples(raw.injectionNs, raw.intervalNs, m);
      }
    }
  }

  lemma Multiples(a: nat, b: nat, n: nat)
    requires b > 0
    ensures a == n * b ==> a / b == n && a % b == 0
    ensures n == a / b && a % b == 0 ==> a == n * b
  {
    var q, r := a / b, a % b;
    assert a == q * b + r;
    if a == n * b { Unique(n, q, b, r); }
  }

  lemma Unique(n: int, q: int, b: int, r: int)
    requires n * b == q * b + r && 0 <= r < b
    ensures n == q && r == 0
  {
    assert (n - q) * b == r;
    if n > q { AtLeast(n - q, b); }
    if n < q { AtLeast(q - n, b); }
  }

  lemma AtLeast(k: int, b: int)
    requires k > 0 && b > 0
    ensures k * b >= b
  {}

  /** In an accepted setting the SLO of a class is its own, in nanoseconds. */
  lemma {:induction false} SloOfClass(classes: seq<Class>, i: nat)
    requires i < |classes| && forall a, b :: 0 <= a < b < |classes| ==> classes[a].name != classes[b].name
    ensures SloNs(classes, classes[i].name) == classes[i].sloMs * 1_000_000
  {
    if i > 0 {
      assert classes[0].name != classes[i].name;
      SloOfClass(classes[1..], i - 1);
    }
  }

  lemma SettingMeans(raw: Raw, s: Scenario, i: nat)
    requires GoodSetting(raw, s) && i < |s.classes|
    ensures var c := SettingOf(s);
            && c.cut == raw.injectionNs && c.interval == raw.intervalNs
            && s.classes[i].name in c.slo && c.slo[s.classes[i].name] == s.classes[i].sloMs * 1_000_000
  {
    SloOfClass(s.classes, i);
    assert s.classes[i] in s.classes;
  }

  // ---- the report ----

  /** The positions of the rows that show a feature. */
  ghost function Showing(c: Setting, rows: seq<Row>, f: Feature): set<int>
    requires c.interval > 0
  {
    set i | 0 <= i < |rows| && Shows(c, rows[i], f)
  }

  lemma ShowingSnoc(c: Setting, rows: seq<Row>, f: Feature, n: nat)
    requires c.interval > 0 && |rows| == n + 1
    ensures n !in Showing(c, rows[..n], f)
    ensures Showing(c, rows, f) == Showing(c, rows[..n], f) + if Shows(c, rows[n], f) then {n} else {}
  {
    hide Shows;
  }

  lemma {:induction false} CountIsSize(c: Setting, rows: seq<Row>, f: Feature)
    requires c.interval > 0
    ensures Count(c, rows, f) == |Showing(c, rows, f)|
  {
    hide Shows;
    if rows == [] {
      assert Showing(c, rows, f) == {};
    } else {
      hide Showing;
      var n := |rows| - 1;
      CountIsSize(c, rows[..n], f);
      ShowingSnoc(c, rows, f, n);
    }
  }

  /** The rows of a class and path that ended in a disposition. */
  ghost function Ended(rows: seq<Row>, q: Cohort, d: Disposition): set<int> {
    set i | 0 <= i < |rows| && rows[i].class_ == q.class_ && rows[i].path == q.path && rows[i].disposition == d
  }

  /** The outcome column that a disposition belongs to. */
  lemma ColumnExactly(c: Setting, rows: seq<Row>, q: Cohort, kind: Kind, d: Disposition)
    requires c.interval > 0 && AllSound(c, rows)
    requires match kind
             case Success => d == DResponded(TSuccess)
             case Rejected => d == DResponded(TRejected(true))
             case Deadline => d == DResponded(TDeadline)
             case Cancelled => d == DResponded(TCancelled)
             case TaskError => d == DResponded(TTaskError)
             case GovernorError => d == DResponded(TGovernorError)
             case CallerDropped => d == DCallerDropped
             case NotSubmitted => d == DNotSubmitted
             case Unanswered => d == DUnanswered
    ensures Count(c, rows, CohortKind(q, kind)) == |Ended(rows, q, d)|
  {
    CountIsSize(c, rows, CohortKind(q, kind));
    forall i | 0 <= i < |rows| ensures i in Ended(rows, q, d) <==> Shows(c, rows[i], CohortKind(q, kind)) {
      assert Sound(c, rows[i]);
    }
    assert Ended(rows, q, d) == Showing(c, rows, CohortKind(q, kind));
  }

  /**
   * The outcome table of a cohort: each of its nine entries is the number of rows of that class and
   * path that ended in the one disposition the entry is named after.
   */
  lemma OutcomesExactly(c: Setting, rows: seq<Row>, p: Report, q: Cohort)
    requires Describes(c, rows, p) && q in p.cohorts
    ensures var o := p.cohorts[q].outcomes;
            && FullTable(o)
            && o[Success] == |Ended(rows, q, DResponded(TSuccess))|
            && o[Rejected] == |Ended(rows, q, DResponded(TRejected(true)))|
            && o[Deadline] == |Ended(rows, q, DResponded(TDeadline))|
            && o[Cancelled] == |Ended(rows, q, DResponded(TCancelled))|
            && o[TaskError] == |Ended(rows, q, DResponded(TTaskError))|
            && o[GovernorError] == |Ended(rows, q, DResponded(TGovernorError))|
            && o[CallerDropped] == |Ended(rows, q, DCallerDropped)|
            && o[NotSubmitted] == |Ended(rows, q, DNotSubmitted)|
            && o[Unanswered] == |Ended(rows, q, DUnanswered)|
  {
    hide Count, Sound, Ended, SettlementMatches, CutMatches, BucketsMatch;
    var t := p.cohorts[q];
    assert TallyMatches(c, rows, q, t);
    ColumnExactly(c, rows, q, Success, DResponded(TSuccess));
    ColumnExactly(c, rows, q, Rejected, DResponded(TRejected(true)));
    ColumnExactly(c, rows, q, Deadline, DResponded(TDeadline));
    ColumnExactly(c, rows, q, Cancelled, DResponded(TCancelled));
    ColumnExactly(c, rows, q, TaskError, DResponded(TTaskError));
    ColumnExactly(c, rows, q, GovernorError, DResponded(TGovernorError));
    ColumnExactly(c, rows, q, CallerDropped, DCallerDropped);
    ColumnExactly(c, rows, q, NotSubmitted, DNotSubmitted);
    ColumnExactly(c, rows, q, Unanswered, DUnanswered);
  }

  /** The rows of a cohort, and those of its successes that were answered within the SLO of their class. */
  ghost function Members(rows: seq<Row>, q: Cohort): set<int> {
    set i | 0 <= i < |rows| && rows[i].class_ == q.class_ && rows[i].path == q.path
  }

  ghost function WithinSlo(c: Setting, rows: seq<Row>, q: Cohort): set<int> {
    set i | i in Ended(rows, q, DResponded(TSuccess)) && rows[i].response.Some? && q.class_ in c.slo
            && rows[i].response.value - rows[i].intended <= c.slo[q.class_]
  }

  /** A cohort's goodput: its rows, its successes, and its successes within the SLO. */
  lemma GoodputExactly(c: Setting, rows: seq<Row>, p: Report, q: Cohort)
    requires Describes(c, rows, p)
    ensures q in p.cohorts <==> Members(rows, q) != {}
    ensures q in p.cohorts ==>
              var t := p.cohorts[q];
              && t.intended == |Members(rows, q)| && t.success == |Ended(rows, q, DResponded(TSuccess))|
              && t.slo == |WithinSlo(c, rows, q)|
  {
    hide Count, SettlementMatches, CutMatches, BucketsMatch;
    CountIsSize(c, rows, InCohort(q));
    CountIsSize(c, rows, CohortSlo(q));
    assert Members(rows, q) == Showing(c, rows, InCohort(q));
    ColumnExactly(c, rows, q, Success, DResponded(TSuccess));
    assert q in p.cohorts ==> TallyMatches(c, rows, q, p.cohorts[q]);
    forall i | 0 <= i < |rows| ensures i in WithinSlo(c, rows, q) <==> Shows(c, rows[i], CohortSlo(q)) {
      assert Sound(c, rows[i]);
    }
    assert WithinSlo(c, rows, q) == Showing(c, rows, CohortSlo(q));
  }

  // ---- totals and intervals ----

  /** The rows that were submitted, and those that had been answered or dropped before a time. */
  ghost function SubmittedRows(rows: seq<Row>): set<int> {
    set i | 0 <= i < |rows| && rows[i].disposition != DNotSubmitted
  }

  ghost function RespondedBefore(rows: seq<Row>, t: int): set<int> {
    set i | 0 <= i < |rows| && rows[i].disposition.DResponded? && rows[i].response.Some? && rows[i].response.value < t
  }

  ghost function DroppedBefore(rows: seq<Row>, t: int): set<int> {
    set i | 0 <= i < |rows| && rows[i].disposition.DCallerDropped? && rows[i].drop.Some? && rows[i].drop.value < t
  }

  ghost function DisposedAs(rows: seq<Row>, d: Disposition): set<int> {
    set i | 0 <= i < |rows| && rows[i].disposition == d
  }

  ghost function Responded(rows: seq<Row>): set<int> {
    set i | 0 <= i < |rows| && rows[i].disposition.DResponded?
  }

  /** The totals of a report at settlement. */
  lemma SettlementExactly(c: Setting, rows: seq<Row>, p: Report)
    requires Describes(c, rows, p)
    ensures p.settlement.intended == |rows| && p.settlement.submitted == |SubmittedRows(rows)|
    ensures p.settlement.notSubmitted == |DisposedAs(rows, DNotSubmitted)|
    ensures p.settlement.responded == |Responded(rows)| && p.settlement.dropped == |DisposedAs(rows, DCallerDropped)|
    ensures p.settlement.unanswered == |DisposedAs(rows, DUnanswered)| && p.settlement.waiting == 0
  {
    hide Count, BucketsMatch, CohortsMatch, CutMatches, Sound;
    CountIsSize(c, rows, IsSubmitted);
    assert SubmittedRows(rows) == Showing(c, rows, IsSubmitted);
    CountIsSize(c, rows, IsNotSubmitted);
    assert DisposedAs(rows, DNotSubmitted) == Showing(c, rows, IsNotSubmitted);
    CountIsSize(c, rows, IsResponded);
    assert Responded(rows) == Showing(c, rows, IsResponded);
    CountIsSize(c, rows, IsDropped);
    assert DisposedAs(rows, DCallerDropped) == Showing(c, rows, IsDropped);
    CountIsSize(c, rows, IsUnanswered);
    assert DisposedAs(rows, DUnanswered) == Showing(c, rows, IsUnanswered);
  }

  /** The totals of a report at the injection cut. */
  lemma CutExactly(c: Setting, rows: seq<Row>, p: Report)
    requires Describes(c, rows, p)
    ensures p.cut.intended == |rows| && p.cut.submitted == |SubmittedRows(rows)|
    ensures p.cut.notSubmitted == |DisposedAs(rows, DNotSubmitted)|
    ensures p.cut.responded == |RespondedBefore(rows, c.cut)| && p.cut.dropped == |DroppedBefore(rows, c.cut)|
    ensures p.cut.waiting == p.cut.submitted - p.cut.responded - p.cut.dropped && p.cut.unanswered == 0
  {
    SettlementConserved(c, rows, p);
    SettlementExactly(c, rows, p);
    hide Count, BucketsMatch, CohortsMatch, Sound;
    CountIsSize(c, rows, Early(FResponded));
    CountIsSize(c, rows, Early(FDropped));
    forall i | 0 <= i < |rows|
      ensures i in RespondedBefore(rows, c.cut) <==> Shows(c, rows[i], Early(FResponded))
      ensures i in DroppedBefore(rows, c.cut) <==> Shows(c, rows[i], Early(FDropped))
    {
      EarlyExactly(c, rows[i]);
    }
    assert RespondedBefore(rows, c.cut) == Showing(c, rows, Early(FResponded));
    assert DroppedBefore(rows, c.cut) == Showing(c, rows, Early(FDropped));
  }

  lemma EarlyExactly(c: Setting, r: Row)
    requires c.interval > 0 && Sound(c, r)
    ensures Shows(c, r, Early(FResponded)) <==>
            r.disposition.DResponded? && r.response.Some? && r.response.value < c.cut
    ensures Shows(c, r, Early(FDropped)) <==> r.disposition.DCallerDropped? && r.drop.Some? && r.drop.value < c.cut
  {}

  /** The time at which a row counts in a column, written out. */
  ghost function When(r: Row, f: Field): Option<int> {
    match f
    case FIntended => Some(r.intended)
    case FSubmitted => r.submitted
    case FNotSubmitted => if r.disposition == DNotSubmitted then Some(r.intended) else None
    case FStarted => r.started
    case FResponded => r.response
    case FSuccess => if r.disposition == DResponded(TSuccess) then r.response else None
    case FRejected => if r.disposition == DResponded(TRejected(true)) then r.response else None
    case FDropped => r.drop
  }

  /** The rows that count in a column within a span of time. */
  ghost function During(rows: seq<Row>, f: Field, lo: int, hi: int): set<int> {
    set i | 0 <= i < |rows| && When(rows[i], f).Some? && lo <= When(rows[i], f).value < hi
  }

  /** Interval k of a report: each column counts the rows whose time lies in [k, k + 1) intervals. */
  lemma IntervalExactly(c: Setting, rows: seq<Row>, p: Report, k: nat)
    requires Describes(c, rows, p) && k < |p.intervals|
    ensures |p.intervals| == c.cut / c.interval
    ensures var b, lo, hi := p.intervals[k], k * c.interval, (k + 1) * c.interval;
            && b.intended == |During(rows, FIntended, lo, hi)| && b.submitted == |During(rows, FSubmitted, lo, hi)|
            && b.notSubmitted == |During(rows, FNotSubmitted, lo, hi)| && b.started == |During(rows, FStarted, lo, hi)|
            && b.responded == |During(rows, FResponded, lo, hi)| && b.success == |During(rows, FSuccess, lo, hi)|
            && b.rejected == |During(rows, FRejected, lo, hi)| && b.dropped == |During(rows, FDropped, lo, hi)|
  {
    hide Count, SettlementMatches, CutMatches, CohortsMatch, During;
    var b := p.intervals[k];
    assert forall f :: Get(b, f) == Count(c, rows, InBucket(f, k));
    assert Get(b, FIntended) == b.intended && Get(b, FSubmitted) == b.submitted
        && Get(b, FNotSubmitted) == b.notSubmitted;
    assert Get(b, FStarted) == b.started && Get(b, FResponded) == b.responded && Get(b, FSuccess) == b.success;
    assert Get(b, FRejected) == b.rejected && Get(b, FDropped) == b.dropped;
    forall f: Field ensures Count(c, rows, InBucket(f, k)) == |During(rows, f, k * c.interval, (k + 1) * c.interval)| {
      BucketExactly(c, rows, f, k);
    }
  }

  lemma BucketExactly(c: Setting, rows: seq<Row>, f: Field, k: nat)
    requires ValidSetting(c) && AllSound(c, rows) && k < c.cut / c.interval
    ensures Count(c, rows, InBucket(f, k)) == |During(rows, f, k * c.interval, (k + 1) * c.interval)|
  {
    hide Count, Sound;
    CountIsSize(c, rows, InBucket(f, k));
    forall i | 0 <= i < |rows|
      ensures i in During(rows, f, k * c.interval, (k + 1) * c.interval) <==> Shows(c, rows[i], InBucket(f, k))
    {
      WhenIsTime(c, rows[i], f);
      TimesNonNegative(c, rows[i], f);
      if TimeOf(rows[i], f).Some? { BucketSpan(c, TimeOf(rows[i], f).value, k); }
    }
    assert During(rows, f, k * c.interval, (k + 1) * c.interval) == Showing(c, rows, InBucket(f, k));
  }

  lemma WhenIsTime(c: Setting, r: Row, f: Field)
    requires Sound(c, r)
    ensures When(r, f) == TimeOf(r, f)
  {}

  lemma BucketSpan(c: Setting, t: int, k: nat)
    requires ValidSetting(c) && t >= 0 && k < c.cut / c.interval
    ensures t < c.cut && t / c.interval == k <==> k * c.interval <= t < (k + 1) * c.interval
  {
    var d, q := c.interval, t / c.interval;
    assert t == q * d + t % d;
    Multiples(c.cut, d, c.cut / d);
    Spans(t, d, q, t % d, k, c.cut / d);
  }

  lemma Spans(t: int, d: int, q: int, r: int, k: int, n: int)
    requires d > 0 && t == q * d + r && 0 <= r < d && 0 <= k < n
    ensures t < n * d && q == k <==> k * d <= t < (k + 1) * d
  {
    if q == k { Ordered(k + 1, n, d); }
    if q < k { Ordered(q + 1, k, d); }
    if q > k { Ordered(k + 1, q, d); }
  }

  lemma Ordered(a: int, b: int, d: int)
    requires a <= b && d > 0
    ensures a * d <= b * d
  {}

  /** The rows of a class that were started, and those that were submitted. */
  ghost function StartedOf(rows: seq<Row>, name: string): set<int> {
    set i | 0 <= i < |rows| && rows[i].class_ == name && rows[i].started.Some?
  }

  ghost function SubmittedOf(rows: seq<Row>, name: string): set<int> {
    set i | 0 <= i < |rows| && rows[i].class_ == name && rows[i].disposition != DNotSubmitted
  }

  /** The run's own class counters are accepted exactly if they are ordered and fit the rows. */
  lemma CountersExactly(c: Setting, rows: seq<Row>, counters: map<string, ClassCounter>)
    requires c.interval > 0
    ensures CountersMatch(c, rows, counters) <==>
            && (forall name :: name in counters <==> name in c.slo)
            && (forall name :: name in counters ==>
                  var k := counters[name];
                  k.started == |StartedOf(rows, name)| && k.started <= k.admitted
                      == k.terminated <= |SubmittedOf(rows, name)|)
  {
    hide Count;
    assert counters.Keys == c.slo.Keys <==> forall name :: name in counters <==> name in c.slo;
    forall name: string
      ensures Count(c, rows, ClassStarted(name)) == |StartedOf(rows, name)|
      ensures Count(c, rows, ClassSubmitted(name)) == |SubmittedOf(rows, name)|
    {
      CountIsSize(c, rows, ClassStarted(name));
      CountIsSize(c, rows, ClassSubmitted(name));
      assert StartedOf(rows, name) == Showing(c, rows, ClassStarted(name));
      assert SubmittedOf(rows, name) == Showing(c, rows, ClassSubmitted(name));
    }
  }
}
