/** tools/gates/rust_test_evidence.py: accepting a nextest event stream against a selection. */
module TestTrace {
  import opened Wrappers

  datatype Case = Case(package: string, binary: string, name: string)
  datatype Suite = Suite(package: string, binary: string)

  /** A selected target after splitting "package/kind/binary". */
  datatype Target = Target(package: string, kind: string, binary: string) | Unsplittable(text: string)

  datatype CaseStep = CaseStarted | CaseOk | CaseOther
  datatype SuiteStep =
    | SuiteStarted(testCount: Option<int>)
    | SuiteOk(passed: Option<int>, failed: Option<int>, ignored: Option<int>, filteredOut: Option<int>)
    | SuiteOther

  /** One line of output; a line without a usable identity or type is Unusable. */
  datatype Event =
    | CaseEvent(case_: Case, caseStep: CaseStep)
    | SuiteEvent(suite: Suite, suiteStep: SuiteStep)
    | Unusable

  datatype Error =
    | MalformedTarget | AliasedSuite | CaseWithoutTarget | UnregisteredZeroCase
    | UnusableLine | UnexpectedSuite | DuplicateSuiteStart | SuiteStartCount | UnmatchedSuiteFinish
    | NonPassSuite | UnexpectedCase | DuplicateCaseStart | UnmatchedCaseFinish | NonPassCase | Denominator

  const ZERO_CASE_LIBS: set<Target> := {
    Target("taskmesh-contract", "lib", "taskmesh_contract"),
    Target("taskmesh-rayon", "lib", "taskmesh_rayon")}

  // ---- the selection ----

  function SuiteOfCase(c: Case): Suite { Suite(c.package, c.binary) }

  function SuiteOfTarget(t: Target): Suite {
    if t.Target? then Suite(t.package, t.binary) else Suite("", "")
  }

  predicate WellFormed(t: Target) {
    t.Target? && t.package != "" && t.kind != "" && t.binary != ""
  }

  function CasesIn(expected: set<Case>, s: Suite): nat {
    |set c | c in expected && SuiteOfCase(c) == s|
  }

  predicate ZeroAllowed(t: Target, allowFiltered: bool) {
    t in ZERO_CASE_LIBS && !allowFiltered
  }

  /** The selection itself is consistent. */
  ghost predicate Selection(expected: set<Case>, targets: set<Target>, allowFiltered: bool) {
    && (forall t :: t in targets ==> WellFormed(t))
    && (forall t, u :: t in targets && u in targets && SuiteOfTarget(t) == SuiteOfTarget(u) ==> t == u)
    && (forall c :: c in expected ==> exists t :: t in targets && SuiteOfTarget(t) == SuiteOfCase(c))
    && (forall t :: t in targets ==> CasesIn(expected, SuiteOfTarget(t)) > 0 || ZeroAllowed(t, allowFiltered))
  }

  /** The suites with their expected number of cases. */
  ghost predicate CountsOf(counts: map<Suite, nat>, expected: set<Case>, targets: set<Target>)
    requires forall t :: t in targets ==> WellFormed(t)
  {
    && (forall s :: s in counts <==> exists t :: t in targets && SuiteOfTarget(t) == s)
    && (forall s :: s in counts ==> counts[s] == CasesIn(expected, s))
  }

  lemma CasesInAdd(done: set<Case>, c: Case, s: Suite)
    requires c !in done
    ensures CasesIn(done + {c}, s) == CasesIn(done, s) + if SuiteOfCase(c) == s then 1 else 0
  {
    var before := set x | x in done && SuiteOfCase(x) == s;
    var after := set x | x in done + {c} && SuiteOfCase(x) == s;
    if SuiteOfCase(c) == s { assert after == before + {c}; } else { assert after == before; }
  }

  // ---- traces, one key at a time ----

  datatype Key = CaseKey(c: Case) | SuiteKey(s: Suite) | NoKey

  function KeyOf(e: Event): Key {
    match e
    case CaseEvent(c, _) => CaseKey(c)
    case SuiteEvent(s, _) => SuiteKey(s)
    case Unusable => NoKey
  }

  /** The events of one key, in trace order. */
  ghost function Project(es: seq<Event>, k: Key): seq<Event> {
    if es == [] then []
    else Project(es[..|es| - 1], k) + if KeyOf(es[|es| - 1]) == k then [es[|es| - 1]] else []
  }

  datatype Plan = Plan(expected: set<Case>, counts: map<Suite, nat>, allowFiltered: bool)

  predicate GoodStart(p: Plan, e: Event) {
    match e
    case CaseEvent(c, step) => c in p.expected && step.CaseStarted?
    case SuiteEvent(s, step) => s in p.counts && step.SuiteStarted? && step.testCount == Some(p.counts[s])
    case Unusable => false
  }

  predicate GoodFinish(p: Plan, e: Event) {
    match e
    case CaseEvent(c, step) => c in p.expected && step.CaseOk?
    case SuiteEvent(s, step) =>
      && s in p.counts && step.SuiteOk? && step.passed == Some(p.counts[s])
      && step.failed == Some(0) && step.ignored == Some(0)
      && step.filteredOut.Some? && step.filteredOut.value >= 0
      && (!p.allowFiltered ==> step.filteredOut.value == 0)
    case Unusable => false
  }

  /** The events of one key are an initial part of a started/ok pair. */
  ghost predicate OnTrack(p: Plan, es: seq<Event>) {
    || es == []
    || (|es| == 1 && GoodStart(p, es[0]))
    || (|es| == 2 && GoodStart(p, es[0]) && GoodFinish(p, es[1]))
  }

  /** A key that must appear: every selected case and every suite with a selected case. */
  ghost predicate Mandatory(p: Plan, k: Key) {
    match k
    case CaseKey(c) => c in p.expected
    case SuiteKey(s) => s in p.counts && p.counts[s] > 0
    case NoKey => false
  }

  /** One key is complete: exactly one good pair, or nothing where nothing is required. */
  ghost predicate Complete(p: Plan, k: Key, es: seq<Event>) {
    OnTrack(p, es) && (|es| == 2 || (es == [] && !Mandatory(p, k)))
  }

  /** The acceptance condition: stated key by key, so independent of interleaving. */
  ghost predicate Interleaving(p: Plan, es: seq<Event>) {
    forall k :: Complete(p, k, Project(es, k))
  }

  lemma {:induction false} ProjectPrefix(es: seq<Event>, n: nat, k: Key)
    requires n <= |es|
    ensures Project(es[..n], k) <= Project(es, k)
  {
    if n == |es| {
      assert es[..n] == es;
    } else {
      ProjectPrefix(es[..|es| - 1], n, k);
      assert es[..|es| - 1][..n] == es[..n];
    }
  }

  lemma ProjectSnoc(es: seq<Event>, n: nat, k: Key)
    requires n < |es|
    ensures Project(es[..n + 1], k) == Project(es[..n], k) + if KeyOf(es[n]) == k then [es[n]] else []
  {
    assert es[..n + 1][..n] == es[..n];
  }

  lemma OffTrackForever(p: Plan, es: seq<Event>, n: nat, k: Key)
    requires n <= |es| && !OnTrack(p, Project(es[..n], k))
    ensures !Interleaving(p, es)
  {
    ProjectPrefix(es, n, k);
    var part, whole := Project(es[..n], k), Project(es, k);
    assert forall i :: 0 <= i < |part| ==> part[i] == whole[i];
    assert !Complete(p, k, whole);
  }

  // ---- the acceptor ----

  /** How far the acceptor has come, as the four sets of the source. */
  datatype Progress = Progress(
    started: set<Case>, passed: set<Case>, suiteStarted: set<Suite>, suiteFinished: set<Suite>)

  function Steps(g: Progress, k: Key): nat {
    match k
    case CaseKey(c) => if c in g.passed then 2 else if c in g.started then 1 else 0
    case SuiteKey(s) => if s in g.suiteFinished then 2 else if s in g.suiteStarted then 1 else 0
    case NoKey => 0
  }

  ghost predicate Tracks(p: Plan, g: Progress, es: seq<Event>) {
    && g.passed <= g.started <= p.expected
    && g.suiteFinished <= g.suiteStarted
    && (forall s :: s in g.suiteStarted ==> s in p.counts)
    && forall k :: KeyTracks(p, g, es, k)
  }

  ghost predicate KeyTracks(p: Plan, g: Progress, es: seq<Event>, k: Key) {
    OnTrack(p, Project(es, k)) && |Project(es, k)| == Steps(g, k)
  }

  /** The progress after one more event, or the reason it is refused. */
  function Advance(p: Plan, g: Progress, e: Event): Result<Progress, Error> {
    match e
    case Unusable => Err(UnusableLine)
    case SuiteEvent(s, step) => AdvanceSuite(p, g, s, step)
    case CaseEvent(c, step) =>
      if c !in p.expected then Err(UnexpectedCase)
      else if step.CaseStarted? then
        if c in g.started then Err(DuplicateCaseStart) else Ok(g.(started := g.started + {c}))
      else if step.CaseOk? then
        if c !in g.started || c in g.passed then Err(UnmatchedCaseFinish) else Ok(g.(passed := g.passed + {c}))
      else Err(NonPassCase)
  }

  function AdvanceSuite(p: Plan, g: Progress, s: Suite, step: SuiteStep): Result<Progress, Error> {
    if s !in p.counts then Err(UnexpectedSuite)
    else if step.SuiteStarted? then
      if s in g.suiteStarted then Err(DuplicateSuiteStart)
      else if step.testCount != Some(p.counts[s]) then Err(SuiteStartCount)
      else Ok(g.(suiteStarted := g.suiteStarted + {s}))
    else if step.SuiteOk? then
      if s in g.suiteFinished || s !in g.suiteStarted then Err(UnmatchedSuiteFinish)
      else if step.passed != Some(p.counts[s]) || step.failed != Some(0) || step.ignored != Some(0)
              || step.filteredOut.None? || step.filteredOut.value < 0
              || (!p.allowFiltered && step.filteredOut.value != 0) then Err(NonPassSuite)
      else Ok(g.(suiteFinished := g.suiteFinished + {s}))
    else Err(NonPassSuite)
  }

  /** An event is accepted exactly when it keeps its own key on track. */
  lemma AdvanceIsExact(p: Plan, g: Progress, es: seq<Event>, n: nat)
    requires n < |es| && Tracks(p, g, es[..n])
    ensures Advance(p, g, es[n]).Ok? <==> OnTrack(p, Project(es[..n + 1], KeyOf(es[n])))
    ensures Advance(p, g, es[n]).Ok? ==> Tracks(p, Advance(p, g, es[n]).value, es[..n + 1])
  {
    var e := es[n];
    var key := KeyOf(e);
    var before := Project(es[..n], key);
    ProjectSnoc(es, n, key);
    assert KeyTracks(p, g, es[..n], key);
    OneEvent(p, g, before, e);
    if Advance(p, g, e).Ok? {
      var h := Advance(p, g, e).value;
      AdvanceShape(p, g, e);
      var longer := es[..n + 1];
      forall k ensures KeyTracks(p, h, longer, k) {
        ProjectSnoc(es, n, k);
        if k != key {
          assert KeyTracks(p, g, es[..n], k);
          AdvanceFrame(p, g, e, k);
        }
      }
    }
  }

  lemma AdvanceShape(p: Plan, g: Progress, e: Event)
    requires Advance(p, g, e).Ok?
    requires g.passed <= g.started <= p.expected && g.suiteFinished <= g.suiteStarted
    requires forall s :: s in g.suiteStarted ==> s in p.counts
    ensures var h := Advance(p, g, e).value;
            && h.passed <= h.started <= p.expected && h.suiteFinished <= h.suiteStarted
            && forall s :: s in h.suiteStarted ==> s in p.counts
  {}

  lemma OneEvent(p: Plan, g: Progress, before: seq<Event>, e: Event)
    requires OnTrack(p, before) && |before| == Steps(g, KeyOf(e))
    requires g.passed <= g.started && g.suiteFinished <= g.suiteStarted
    requires e.SuiteEvent? && e.suite in g.suiteStarted ==> e.suite in p.counts
    ensures Advance(p, g, e).Ok? <==> OnTrack(p, before + [e])
    ensures Advance(p, g, e).Ok? ==> Steps(Advance(p, g, e).value, KeyOf(e)) == |before| + 1
  {}

  lemma AdvanceFrame(p: Plan, g: Progress, e: Event, k: Key)
    requires Advance(p, g, e).Ok? && k != KeyOf(e)
    ensures Steps(Advance(p, g, e).value, k) == Steps(g, k)
  {}

  /** The final comparison of the four sets. */
  ghost predicate Settled(p: Plan, g: Progress) {
    && g.passed == p.expected && g.started == p.expected
    && g.suiteStarted == g.suiteFinished
    && forall s :: s in p.counts && p.counts[s] > 0 ==> s in g.suiteFinished
  }

  lemma SettledIsComplete(p: Plan, g: Progress, es: seq<Event>)
    requires Tracks(p, g, es)
    ensures Settled(p, g) <==> Interleaving(p, es)
  {
    if Settled(p, g) {
      forall k ensures Complete(p, k, Project(es, k)) {
        assert KeyTracks(p, g, es, k);
        if |Project(es, k)| == 1 { StartedIsPlanned(p, g, es, k); }
      }
    }
    if Interleaving(p, es) {
      forall k ensures Steps(g, k) == 2 || (Steps(g, k) == 0 && !Mandatory(p, k)) {
        assert Complete(p, k, Project(es, k)) && KeyTracks(p, g, es, k);
      }
      forall c | c in p.expected ensures c in g.passed { assert Steps(g, CaseKey(c)) == 2; }
      forall s | s in g.suiteStarted ensures s in g.suiteFinished { assert Steps(g, SuiteKey(s)) == 2; }
      forall s | s in p.counts && p.counts[s] > 0 ensures s in g.suiteFinished {
        assert Mandatory(p, SuiteKey(s));
      }
    }
  }

  lemma StartedIsPlanned(p: Plan, g: Progress, es: seq<Event>, k: Key)
    requires Tracks(p, g, es) && Settled(p, g)
    ensures Steps(g, k) != 1
  {}

  /** The denominators: one suite per target, and every case counted in its suite. */
  method ExpectedBySuite(expected: set<Case>, targets: set<Target>, allowFiltered: bool)
    returns (r: Result<map<Suite, nat>, Error>)
    ensures r.Ok? <==> Selection(expected, targets, allowFiltered)
    ensures r.Ok? ==> CountsOf(r.value, expected, targets)
  {
    var counts: map<Suite, nat> := map[];
    var allowed: set<Suite> := {};
    var rest := targets;
    while rest != {}
      invariant rest <= targets
      invariant forall t :: t in targets - rest ==> WellFormed(t)
      invariant forall s :: s in counts <==> exists t :: t in targets - rest && SuiteOfTarget(t) == s
      invariant forall s :: s in counts ==> counts[s] == 0
      invariant forall t, u :: t in targets - rest && u in targets - rest && SuiteOfTarget(t) == SuiteOfTarget(u) ==>
          t == u
      invariant forall s :: s in allowed <==>
        exists t :: t in targets - rest && SuiteOfTarget(t) == s && ZeroAllowed(t, allowFiltered)
    {
      var t :| t in rest;
      if t.Unsplittable? || t.package == "" || t.kind == "" || t.binary == "" { return Err(MalformedTarget); }
      var s := Suite(t.package, t.binary);
      if s in counts { return Err(AliasedSuite); }
      counts := counts[s := 0];
      if t in ZERO_CASE_LIBS && !allowFiltered { allowed := allowed + {s}; }
      assert targets - (rest - {t}) == (targets - rest) + {t};
      rest := rest - {t};
    }
    assert targets - {} == targets;
    r := CountCases(expected, targets, counts);
    if r.Err? { return; }
    counts := r.value;
    var suites := counts.Keys;
    while suites != {}
      invariant suites <= counts.Keys
      invariant forall s :: s in counts.Keys - suites ==> counts[s] > 0 || s in allowed
    {
      var s :| s in suites;
      if counts[s] == 0 && s !in allowed {
        var t :| t in targets && SuiteOfTarget(t) == s;
        assert !ZeroAllowed(t, allowFiltered);
        return Err(UnregisteredZeroCase);
      }
      suites := suites - {s};
    }
    forall t | t in targets ensures CasesIn(expected, SuiteOfTarget(t)) > 0 || ZeroAllowed(t, allowFiltered) {
      assert SuiteOfTarget(t) in counts.Keys - suites;
    }
  }

  method CountCases(expected: set<Case>, targets: set<Target>, zero: map<Suite, nat>)
    returns (r: Result<map<Suite, nat>, Error>)
    requires forall t :: t in targets ==> WellFormed(t)
    requires forall s :: s in zero <==> exists t :: t in targets && SuiteOfTarget(t) == s
    requires forall s :: s in zero ==> zero[s] == 0
    ensures r.Ok? <==> forall c :: c in expected ==> SuiteOfCase(c) in zero
    ensures r.Ok? ==> CountsOf(r.value, expected, targets)
  {
    var counts := zero;
    var rest := expected;
    while rest != {}
      invariant rest <= expected && counts.Keys == zero.Keys
      invariant forall c :: c in expected - rest ==> SuiteOfCase(c) in zero
      invariant forall s :: s in counts ==> counts[s] == CasesIn(expected - rest, s)
    {
      var c :| c in rest;
      var s := Suite(c.package, c.binary);
      if s !in counts { return Err(CaseWithoutTarget); }
      forall u | u in counts
        ensures CasesIn(expected - (rest - {c}), u) == CasesIn(expected - rest, u) + if s == u then 1 else 0
      {
        assert expected - (rest - {c}) == (expected - rest) + {c};
        CasesInAdd(expected - rest, c, u);
      }
      counts := counts[s := counts[s] + 1];
      rest := rest - {c};
    }
    assert expected - {} == expected;
    r := Ok(counts);
  }

  /**
   * executed_cases. A trace is accepted exactly when the selection is consistent and the
   * trace interleaves one good started/ok pair per selected case and per suite, where only
   * suites without cases may stay silent. The accepted denominator is the selection.
   */
  method ExecutedCases(events: seq<Event>, expected: set<Case>, targets: set<Target>, allowFiltered: bool)
    returns (r: Result<set<Case>, Error>)
    ensures r.Ok? <==>
      && Selection(expected, targets, allowFiltered)
      && Interleaving(Plan(expected, SelectedCounts(expected, targets), allowFiltered), events)
    ensures r.Ok? ==> r.value == expected
  {
    var selection := ExpectedBySuite(expected, targets, allowFiltered);
    if selection.Err? { return Err(selection.error); }
    CountsAreUnique(selection.value, expected, targets);
    r := AcceptTrace(events, Plan(expected, selection.value, allowFiltered));
  }

  ghost function SelectedCounts(expected: set<Case>, targets: set<Target>): map<Suite, nat> {
    map t | t in targets :: SuiteOfTarget(t) := CasesIn(expected, SuiteOfTarget(t))
  }

  lemma CountsAreUnique(counts: map<Suite, nat>, expected: set<Case>, targets: set<Target>)
    requires forall t :: t in targets ==> WellFormed(t)
    requires CountsOf(counts, expected, targets)
    ensures counts == SelectedCounts(expected, targets)
  {}

  method AcceptTrace(events: seq<Event>, p: Plan) returns (r: Result<set<Case>, Error>)
    ensures r.Ok? <==> Interleaving(p, events)
    ensures r.Ok? ==> r.value == p.expected
  {
    var g := Progress({}, {}, {}, {});
    var i := 0;
    while i < |events|
      invariant 0 <= i <= |events|
      invariant Tracks(p, g, events[..i])
    {
      AdvanceIsExact(p, g, events, i);
      var next := Advance(p, g, events[i]);
      if next.Err? {
        OffTrackForever(p, events, i + 1, KeyOf(events[i]));
        return Err(next.error);
      }
      g := next.value;
      i := i + 1;
    }
    assert events[..i] == events;
    SettledIsComplete(p, g, events);
    var required := set s | s in p.counts && p.counts[s] > 0;
    if g.passed != p.expected || g.started != p.expected || g.suiteStarted != g.suiteFinished
       || !(required <= g.suiteFinished) {
      assert !Settled(p, g) by {
        if required <= g.suiteFinished {} else {
          var s :| s in required && s !in g.suiteFinished;
        }
      }
      return Err(Denominator);
    }
    assert Settled(p, g) by {
      forall s | s in p.counts && p.counts[s] > 0 ensures s in g.suiteFinished { assert s in required; }
    }
    r := Ok(g.passed);
  }

  /** Reordering that keeps the order within every key never changes the verdict. */
  lemma VerdictIgnoresInterleaving(p: Plan, a: seq<Event>, b: seq<Event>)
    requires forall k :: Project(a, k) == Project(b, k)
    ensures Interleaving(p, a) <==> Interleaving(p, b)
  {}

  /** Swapping two neighbouring events of different keys keeps every projection. */
  lemma SwapKeepsProjections(es: seq<Event>, i: nat, k: Key)
    requires i + 1 < |es| && KeyOf(es[i]) != KeyOf(es[i + 1])
    ensures Project(es[i := es[i + 1]][i + 1 := es[i]], k) == Project(es, k)
  {
    var sw := es[i := es[i + 1]][i + 1 := es[i]];
    assert sw[..i] == es[..i];
    ProjectSnoc(es, i, k);
    ProjectSnoc(es, i + 1, k);
    ProjectSnoc(sw, i, k);
    ProjectSnoc(sw, i + 1, k);
    assert Project(sw[..i + 2], k) == Project(es[..i + 2], k);
    assert sw[i + 2..] == es[i + 2..];
    ProjectTail(es, sw, i + 2, k);
  }

  lemma {:induction false} ProjectTail(a: seq<Event>, b: seq<Event>, n: nat, k: Key)
    requires n <= |a| == |b| && a[n..] == b[n..] && Project(a[..n], k) == Project(b[..n], k)
    ensures Project(a, k) == Project(b, k)
    decreases |a| - n
  {
    if n == |a| {
      assert a[..n] == a && b[..n] == b;
    } else {
      assert a[n] == a[n..][0] && b[n] == b[n..][0];
      ProjectSnoc(a, n, k);
      ProjectSnoc(b, n, k);
      assert a[n + 1..] == a[n..][1..] && b[n + 1..] == b[n..][1..];
      ProjectTail(a, b, n + 1, k);
    }
  }
}
