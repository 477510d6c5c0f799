/** tools/gates/run.py: writing a receipt, and re-deriving it when it is validated. */
module GateReceipt {
  import opened Wrappers
  import opened GateRecord
  import opened GateRunner

  datatype Mode = All | Required | Profile | Tier | ById

  /** The four fields a receipt keeps of the source after the run. */
  datatype Identity = Identity(head: string, tree: string, paths: string, dirty: bool)

  function IdentityOf(s: Source): Identity { Identity(s.head, s.tree, s.paths, s.dirty) }

  datatype SourceProblem = DirtyBefore | DirtyAfter | HeadChanged | TreeChanged | PathsChanged

  /** A receipt; lists that the source sorts are kept as the sets or multisets they sort. */
  datatype Receipt<E> = Receipt(
    mode: Mode, selectedIds: multiset<string>, skippedIds: set<string>, platform: string,
    source: Source, sourceAfter: Identity, sourceProblems: seq<SourceProblem>, qualified: bool,
    requiredNotRun: set<string>, requiredNotPassed: set<string>,
    scopeQualified: bool, excluded: seq<string>, results: seq<Record<E>>)

  /** What producer and validator share: inventory, required ids in sorted order, host, judgements. */
  datatype Policy<!E> = Policy(
    inventory: seq<Gate>, required: seq<string>, conditional: map<string, string>, here: string, judges: Judges<E>)

  // ---- shared derivations ----

  function When<T>(b: bool, p: T): seq<T> { if b then [p] else [] }

  /** source_stability_problems. */
  function StabilityProblems(before: Source, after: Source): seq<SourceProblem> {
    When(before.dirty, DirtyBefore) + When(after.dirty, DirtyAfter)
    + When(before.head != after.head, HeadChanged) + When(before.tree != after.tree, TreeChanged)
    + When(before.paths != after.paths, PathsChanged)
  }

  function Ids<E>(rs: seq<Record<E>>): (ids: seq<string>)
    ensures |ids| == |rs|
  {
    seq(|rs|, i requires 0 <= i < |rs| => rs[i].id)
  }

  function GateIds(gs: seq<Gate>): (ids: seq<string>)
    ensures |ids| == |gs|
  {
    seq(|gs|, i requires 0 <= i < |gs| => gs[i].id)
  }

  function IdSet(ids: seq<string>): set<string> { set id | id in ids }

  predicate Distinct(ids: seq<string>) {
    forall i, j :: 0 <= i < j < |ids| ==> ids[i] != ids[j]
  }

  /** summarize_required. */
  function RequiredNotRun<E>(required: seq<string>, rs: seq<Record<E>>): set<string> {
    (set id | id in required && id !in Ids(rs))
    + (set i | 0 <= i < |rs| && rs[i].id in required && rs[i].status.NotRun? :: rs[i].id)
  }

  function RequiredNotPassed<E>(required: seq<string>, rs: seq<Record<E>>): set<string> {
    set i | 0 <= i < |rs| && rs[i].id in required && !rs[i].status.Pass? :: rs[i].id
  }

  /** The entry that a table keyed by id ends up with: the last one. */
  function Find<E>(rs: seq<Record<E>>, id: string): (r: Option<Record<E>>)
    ensures r.Some? ==> r.value.id == id
  {
    if rs == [] then None
    else if rs[|rs| - 1].id == id then Some(rs[|rs| - 1])
    else Find(rs[..|rs| - 1], id)
  }

  function FindGate(gs: seq<Gate>, id: string): (g: Option<Gate>)
    ensures g.Some? ==> g.value in gs && g.value.id == id
  {
    if gs == [] then None
    else if gs[|gs| - 1].id == id then Some(gs[|gs| - 1])
    else FindGate(gs[..|gs| - 1], id)
  }

  predicate CleanPass<E>(r: Record<E>) {
    r.status.Pass? && r.exitCode == Some(0) && !r.timedOut && r.interrupted.None? && r.signal.None?
  }

  /** A skip that the inventory itself declares for this host. */
  predicate DeclaredSkip<E>(y: Policy<E>, r: Record<E>, id: string) {
    && r.status.SkippedPlatform? && r.exitCode.None? && !r.timedOut && r.interrupted.None? && r.signal.None?
    && var g := FindGate(y.inventory, id);
       g.Some? && g.value.platforms.Some? && "any" !in g.value.platforms.value && y.here !in g.value.platforms.value
       && id in y.conditional && y.conditional[id] in g.value.platforms.value
  }

  predicate ReadableInventory(gs: seq<Gate>) {
    Distinct(GateIds(gs)) && forall i :: 0 <= i < |gs| ==> gs[i].platforms.Some?
  }

  /** platform_scope_qualification over the remaining sorted ids. */
  function ScopeLoop<E>(y: Policy<E>, ids: seq<string>, rs: seq<Record<E>>, excluded: seq<string>): (bool, seq<string>)
    decreases |ids|
  {
    if ids == [] then (true, excluded)
    else
      var r := Find(rs, ids[0]);
      if r.None? then (false, excluded)
      else if CleanPass(r.value) then ScopeLoop(y, ids[1..], rs, excluded)
      else if DeclaredSkip(y, r.value, ids[0]) then ScopeLoop(y, ids[1..], rs, excluded + [ids[0]])
      else (false, excluded)
  }

  function ScopeQualification<E>(y: Policy<E>, rs: seq<Record<E>>): (bool, seq<string>) {
    if !ReadableInventory(y.inventory) then (false, []) else ScopeLoop(y, y.required, rs, [])
  }

  /** The loop form of platform_scope_qualification. */
  method PlatformScopeQualification<E>(y: Policy<E>, rs: seq<Record<E>>) returns (ok: bool, excluded: seq<string>)
    ensures (ok, excluded) == ScopeQualification(y, rs)
  {
    if !ReadableInventory(y.inventory) { return false, []; }
    excluded := [];
    var i := 0;
    while i < |y.required|
      invariant 0 <= i <= |y.required|
      invariant ScopeLoop(y, y.required, rs, []) == ScopeLoop(y, y.required[i..], rs, excluded)
    {
      hide CleanPass, DeclaredSkip;
      var id := y.required[i];
      assert y.required[i..][1..] == y.required[i + 1..];
      var r := Find(rs, id);
      if r.None? { return false, excluded; }
      if CleanPass(r.value) {
      } else if DeclaredSkip(y, r.value, id) {
        excluded := excluded + [id];
      } else {
        return false, excluded;
      }
      i := i + 1;
    }
    ok := true;
  }

  // ---- the producer ----

  predicate AllPass<E>(rs: seq<Record<E>>) { forall i :: 0 <= i < |rs| ==> rs[i].status.Pass? }

  predicate OptionalPass<E>(required: seq<string>, rs: seq<Record<E>>) {
    forall i :: 0 <= i < |rs| && rs[i].id !in required ==> rs[i].status.Pass?
  }

  predicate Uninterrupted<E>(rs: seq<Record<E>>) { forall i :: 0 <= i < |rs| ==> rs[i].interrupted.None? }

  /** The tail of main: from the finished results to the receipt. */
  function MakeReceipt<E>(y: Policy<E>, mode: Mode, selected: seq<Gate>, skip: set<string>, source: Source,
                          after: Source, rs: seq<Record<E>>): Receipt<E> {
    var selectedIds := IdSet(GateIds(selected));
    var resultIds := IdSet(Ids(rs));
    var complete := |rs| == |selectedIds| && resultIds == selectedIds && Distinct(Ids(rs));
    var notRun, notPassed := RequiredNotRun(y.required, rs), RequiredNotPassed(y.required, rs);
    var problems := StabilityProblems(source, after);
    var qualified := notRun == {} && notPassed == {} && problems == [] && Uninterrupted(rs) && complete
      && (mode != All || (skip == {} && AllPass(rs)));
    var scope := ScopeQualification(y, rs);
    var scoped := scope.0 && problems == [] && complete && Uninterrupted(rs)
      && (mode != All || (skip == {} && OptionalPass(y.required, rs)));
    Receipt(mode, multiset(GateIds(selected)), skip, y.here, source, IdentityOf(after), problems, qualified,
            notRun, notPassed, scoped, scope.1, rs)
  }

  // ---- the validator ----

  datatype Problem =
    | PlatformDiffers | SourceDiffers | NotClean | HeadDiffers | SourceChanged | StabilityReported | DuplicateIds
    | SelectionDiffers | SkipsMalformed | AllIncomplete | RecordContract(id: string) | StatusLine(id: string)
    | ExecutionReport(id: string) | NotRunDiffers | NotPassedDiffers | QualifiedDiffers | ScopeDiffers

  predicate RecordOk<E>(r: Record<E>) {
    && (r.interrupted.Some? ==> r.interrupted.value > 0)
    && match r.status
       case Pass => r.exitCode == Some(0) && !r.timedOut && r.interrupted.None? && r.signal.None?
       case SkippedPlatform => r.exitCode.None?
       case NotRun => r.exitCode.None? || r.exitCode.value == 2
       case Fail => r.exitCode.None? || r.exitCode.value != 0 || r.timedOut || r.interrupted.Some?
  }

  /** The retained line of a saved PASS. A null specification in the inventory still demands a line here. */
  predicate StatusLineOk<E>(y: Policy<E>, r: Record<E>) {
    r.status.Pass? ==>
      var g := FindGate(y.inventory, r.id);
      && g.Some?
      && (g.value.statusLine != NoLine ==> r.statusLine.Some? && Qualifies(y.judges, g.value, [r.statusLine.value]))
  }

  predicate ReportOk<E>(y: Policy<E>, source: Source, r: Record<E>) {
    r.id in REPORTS && r.status.Pass? ==> y.judges.report(r.id, r.execution, r.statusLine, source)
  }

  function RecordProblems<E>(y: Policy<E>, source: Source, r: Record<E>): seq<Problem> {
    When(!RecordOk(r), RecordContract(r.id)) + When(!StatusLineOk(y, r), StatusLine(r.id))
    + When(!ReportOk(y, source, r), ExecutionReport(r.id))
  }

  function ResultProblems<E>(y: Policy<E>, source: Source, rs: seq<Record<E>>): seq<Problem> {
    if rs == [] then [] else ResultProblems(y, source, rs[..|rs| - 1]) + RecordProblems(y, source, rs[|rs| - 1])
  }

  predicate InventoryComplete<E>(y: Policy<E>, v: Receipt<E>) {
    IdSet(Ids(v.results)) == IdSet(GateIds(y.inventory)) && v.skippedIds == {}
  }

  /** The `--all` completeness conditions; other modes are complete by themselves. */
  predicate AllComplete<E>(y: Policy<E>, v: Receipt<E>) {
    v.mode == All ==> InventoryComplete(y, v) && AllPass(v.results)
  }

  predicate AllScopeComplete<E>(y: Policy<E>, v: Receipt<E>) {
    v.mode == All ==> InventoryComplete(y, v) && OptionalPass(y.required, v.results)
  }

  function ExpectedQualified<E>(y: Policy<E>, v: Receipt<E>): bool {
    RequiredNotRun(y.required, v.results) == {} && RequiredNotPassed(y.required, v.results) == {}
    && !v.source.dirty && v.sourceAfter == IdentityOf(v.source) && v.sourceProblems == []
    && Uninterrupted(v.results) && AllComplete(y, v)
  }

  predicate ScopeAgrees<E>(y: Policy<E>, v: Receipt<E>) {
    var scope := ScopeQualification(y, v.results);
    scope.0 && AllScopeComplete(y, v) && v.scopeQualified && v.excluded == scope.1
  }

  function SourceProblems<E>(y: Policy<E>, v: Receipt<E>, current: Source, expectedHead: Option<string>): seq<Problem> {
    When(v.platform != y.here, PlatformDiffers)
    + When(IdentityOf(v.source) != IdentityOf(current), SourceDiffers)
    + When(v.source.dirty || current.dirty, NotClean)
    + When(expectedHead.Some? && v.source.head != expectedHead.value, HeadDiffers)
    + When(v.sourceAfter != IdentityOf(v.source), SourceChanged)
    + When(v.sourceProblems != [], StabilityReported)
  }

  function SelectionProblems<E>(y: Policy<E>, v: Receipt<E>): seq<Problem> {
    When(!Distinct(Ids(v.results)), DuplicateIds)
    + When(v.selectedIds != multiset(Ids(v.results)), SelectionDiffers)
    + When("" in v.skippedIds, SkipsMalformed)
    + When(!AllScopeComplete(y, v), AllIncomplete)
  }

  function SummaryProblems<E>(y: Policy<E>, v: Receipt<E>): seq<Problem> {
    When(v.requiredNotRun != RequiredNotRun(y.required, v.results), NotRunDiffers)
    + When(v.requiredNotPassed != RequiredNotPassed(y.required, v.results), NotPassedDiffers)
    + When(v.qualified != ExpectedQualified(y, v), QualifiedDiffers)
    + When(!ScopeAgrees(y, v), ScopeDiffers)
  }

  /** local_receipt_problems. */
  function ReceiptProblems<E>(y: Policy<E>, v: Receipt<E>, current: Source,
                              expectedHead: Option<string>): seq<Problem> {
    SourceProblems(y, v, current, expectedHead) + SelectionProblems(y, v)
    + ResultProblems(y, v.source, v.results) + SummaryProblems(y, v)
  }

  // ---- what produced records can look like ----

  /**
   * Of all records a run can leave, the contract check rejects exactly one family: NOT_RUN
   * recorded for exit code 0 without a qualifying status line.
   */
  lemma OnlyUnqualifiedZeroIsRejected<E(!new)>(j: Judges<E>, g: Gate, here: string, source: Source, r: Record<E>)
    requires Produced(j, g, here, source, r)
    ensures !RecordOk(r) <==> r.status.NotRun? && r.exitCode == Some(0)
  {}

  lemma {:induction false} FindSelf<E>(rs: seq<Record<E>>, i: nat)
    requires i < |rs| && Distinct(Ids(rs))
    ensures Find(rs, rs[i].id) == Some(rs[i])
  {
    var n := |rs| - 1;
    if i < n {
      assert Ids(rs)[i] != Ids(rs)[n];
      var init := rs[..n];
      forall a, b | 0 <= a < b < n ensures Ids(init)[a] != Ids(init)[b] {
        assert Ids(init)[a] == Ids(rs)[a] && Ids(init)[b] == Ids(rs)[b];
      }
      FindSelf(init, i);
    }
  }

  lemma {:induction false} FindAbsent<E>(rs: seq<Record<E>>, id: string)
    ensures Find(rs, id).None? <==> id !in Ids(rs)
  {
    if rs != [] {
      var n := |rs| - 1;
      FindAbsent(rs[..n], id);
      assert Ids(rs) == Ids(rs[..n]) + [rs[n].id];
    }
  }

  // ---- the scope loop, declaratively ----

  predicate Settled<E>(y: Policy<E>, rs: seq<Record<E>>, id: string) {
    Find(rs, id).Some? && (CleanPass(Find(rs, id).value) || DeclaredSkip(y, Find(rs, id).value, id))
  }

  /** The listed ids, in order, whose gate was not a clean pass. */
  function NotPassed<E>(ids: seq<string>, rs: seq<Record<E>>): seq<string> {
    if ids == [] then []
    else
      (if Find(rs, ids[0]).Some? && CleanPass(Find(rs, ids[0]).value) then [] else [ids[0]]) + NotPassed(ids[1..], rs)
  }

  /** The loop succeeds exactly when every listed id is settled, and then excludes exactly those that did not pass. */
  lemma {:induction false} ScopeLoopExact<E>(y: Policy<E>, ids: seq<string>, rs: seq<Record<E>>, excluded: seq<string>)
    ensures ScopeLoop(y, ids, rs, excluded).0 <==> forall k :: 0 <= k < |ids| ==> Settled(y, rs, ids[k])
    ensures ScopeLoop(y, ids, rs, excluded).0 ==> ScopeLoop(y, ids, rs, excluded).1 == excluded + NotPassed(ids, rs)
    decreases |ids|
  {
    hide CleanPass, DeclaredSkip;
    if ids != [] {
      var r := Find(rs, ids[0]);
      if r.Some? && CleanPass(r.value) {
        ScopeLoopExact(y, ids[1..], rs, excluded);
        SettledCons(y, ids, rs);
      } else if r.Some? && DeclaredSkip(y, r.value, ids[0]) {
        ScopeLoopExact(y, ids[1..], rs, excluded + [ids[0]]);
        SettledCons(y, ids, rs);
      } else {
        assert !Settled(y, rs, ids[0]);
      }
    }
  }

  lemma SettledCons<E>(y: Policy<E>, ids: seq<string>, rs: seq<Record<E>>)
    requires ids != [] && Settled(y, rs, ids[0])
    ensures (forall k :: 0 <= k < |ids| ==> Settled(y, rs, ids[k]))
        <==> (forall k :: 0 <= k < |ids[1..]| ==> Settled(y, rs, ids[1..][k]))
  {
    hide Settled;
    var rest := ids[1..];
    if forall k :: 0 <= k < |rest| ==> Settled(y, rs, rest[k]) {
      forall k | 0 <= k < |ids| ensures Settled(y, rs, ids[k]) {
        if k > 0 { assert Settled(y, rs, rest[k - 1]); }
      }
    }
    if forall k :: 0 <= k < |ids| ==> Settled(y, rs, ids[k]) {
      forall k | 0 <= k < |rest| ensures Settled(y, rs, rest[k]) { assert Settled(y, rs, ids[k + 1]); }
    }
  }

  lemma ScopeMeansSettled<E>(y: Policy<E>, rs: seq<Record<E>>, id: string)
    requires ScopeQualification(y, rs).0 && id in y.required
    ensures Settled(y, rs, id)
  {
    hide Settled;
    ScopeLoopExact(y, y.required, rs, []);
    var k :| 0 <= k < |y.required| && y.required[k] == id;
    assert Settled(y, rs, y.required[k]);
  }

  // ---- the round trip ----

  /** The selections main makes for the full-denominator modes. */
  ghost predicate FullSelection<E>(y: Policy<E>, mode: Mode, selected: seq<Gate>, skip: set<string>) {
    && Distinct(GateIds(selected)) && skip <= IdSet(GateIds(y.inventory))
    && (forall i :: 0 <= i < |selected| ==> FindGate(y.inventory, selected[i].id) == Some(selected[i]))
    && match mode
       case All => IdSet(GateIds(selected)) == IdSet(GateIds(y.inventory)) - skip
       case Required => IdSet(GateIds(selected)) == IdSet(y.required) - skip
       case Profile => IdSet(GateIds(selected)) == IdSet(y.required) - skip
       case _ => false
  }

  /** The results of a run over the selection, one produced record per gate in order. */
  ghost predicate RunOver<E(!new)>(y: Policy<E>, selected: seq<Gate>, source: Source, rs: seq<Record<E>>) {
    && |rs| == |selected|
    && forall i :: 0 <= i < |rs| ==> Produced(y.judges, selected[i], y.here, source, rs[i])
  }

  /** No selected gate of this platform has an explicitly null status line in the inventory. */
  ghost predicate NoNullLine(selected: seq<Gate>, here: string) {
    forall i :: 0 <= i < |selected| && Applicable(selected[i], here) ==> !selected[i].statusLine.NullLine?
  }

  lemma RunIds<E(!new)>(y: Policy<E>, selected: seq<Gate>, source: Source, rs: seq<Record<E>>)
    requires RunOver(y, selected, source, rs)
    ensures Ids(rs) == GateIds(selected)
  {}

  /** In a scope-qualified receipt every record is a clean pass or a declared platform skip. */
  lemma ScopedRecord<E(!new)>(y: Policy<E>, mode: Mode, selected: seq<Gate>, skip: set<string>, source: Source,
                              after: Source, rs: seq<Record<E>>, i: nat)
    requires FullSelection(y, mode, selected, skip) && RunOver(y, selected, source, rs) && i < |rs|
    requires MakeReceipt(y, mode, selected, skip, source, after, rs).scopeQualified
    ensures rs[i].status.Pass? || DeclaredSkip(y, rs[i], rs[i].id)
  {
    hide Produced, DeclaredSkip, Qualifies;
    RunIds(y, selected, source, rs);
    var id := rs[i].id;
    if id in y.required {
      ScopeMeansSettled(y, rs, id);
      FindSelf(rs, i);
    } else {
      assert GateIds(selected)[i] == Ids(rs)[i] == id;
      assert id in IdSet(GateIds(selected));
      assert mode == All;
    }
  }

  /** One record of a scope-qualified receipt passes every check, up to a null status line. */
  lemma ScopedRecordProblems<E(!new)>(y: Policy<E>, g: Gate, source: Source, r: Record<E>)
    requires Produced(y.judges, g, y.here, source, r) && FindGate(y.inventory, g.id) == Some(g)
    requires r.status.Pass? || DeclaredSkip(y, r, r.id)
    ensures RecordProblems(y, source, r) == [] <==> (Applicable(g, y.here) ==> !g.statusLine.NullLine?)
  {}

  lemma {:induction false} NoResultProblems<E>(y: Policy<E>, source: Source, rs: seq<Record<E>>)
    ensures ResultProblems(y, source, rs) == [] <==>
            forall i :: 0 <= i < |rs| ==> RecordProblems(y, source, rs[i]) == []
  {
    hide RecordProblems;
    if rs != [] {
      var n := |rs| - 1;
      NoResultProblems(y, source, rs[..n]);
      assert forall i :: 0 <= i < n ==> rs[..n][i] == rs[i];
    }
  }

  lemma ScopedSource<E>(y: Policy<E>, mode: Mode, selected: seq<Gate>, skip: set<string>, source: Source, after: Source,
                        rs: seq<Record<E>>, current: Source, expectedHead: Option<string>)
    requires MakeReceipt(y, mode, selected, skip, source, after, rs).scopeQualified
    requires IdentityOf(current) == IdentityOf(source) && (expectedHead.Some? ==> expectedHead.value == source.head)
    ensures SourceProblems(y, MakeReceipt(y, mode, selected, skip, source, after, rs), current, expectedHead) == []
  {}

  lemma ScopedSelection<E(!new)>(y: Policy<E>, mode: Mode, selected: seq<Gate>, skip: set<string>, source: Source,
                                 after: Source, rs: seq<Record<E>>)
    requires FullSelection(y, mode, selected, skip) && RunOver(y, selected, source, rs)
    requires MakeReceipt(y, mode, selected, skip, source, after, rs).scopeQualified
    ensures AllScopeComplete(y, MakeReceipt(y, mode, selected, skip, source, after, rs))
    ensures SelectionProblems(y, MakeReceipt(y, mode, selected, skip, source, after, rs)) == [] <==> "" !in skip
  {
    hide ScopeQualification, Uninterrupted, Produced, StabilityProblems;
    RunIds(y, selected, source, rs);
  }

  lemma QualifiedAgrees<E>(y: Policy<E>, mode: Mode, selected: seq<Gate>, skip: set<string>, source: Source,
                           after: Source, rs: seq<Record<E>>)
    requires var v := MakeReceipt(y, mode, selected, skip, source, after, rs);
             v.scopeQualified && AllScopeComplete(y, v)
    ensures var v := MakeReceipt(y, mode, selected, skip, source, after, rs); v.qualified == ExpectedQualified(y, v)
  {}

  lemma ScopedSummary<E>(y: Policy<E>, mode: Mode, selected: seq<Gate>, skip: set<string>, source: Source,
                         after: Source, rs: seq<Record<E>>)
    requires var v := MakeReceipt(y, mode, selected, skip, source, after, rs);
             v.scopeQualified && AllScopeComplete(y, v)
    ensures SummaryProblems(y, MakeReceipt(y, mode, selected, skip, source, after, rs)) == []
  {
    hide ScopeQualification, Distinct, Uninterrupted, RequiredNotRun, RequiredNotPassed, OptionalPass, AllPass, IdSet,
        StabilityProblems, Ids, GateIds, ExpectedQualified, AllScopeComplete;
    QualifiedAgrees(y, mode, selected, skip, source, after, rs);
  }

  /**
   * The receipt round trip. For --profile, --required and --all, a receipt written with a
   * qualified platform scope is accepted without problems on the unchanged source, exactly
   * when no skipped id is empty and no selected gate of this platform has a null status line.
   */
  lemma ReceiptRoundTrip<E(!new)>(y: Policy<E>, mode: Mode, selected: seq<Gate>, skip: set<string>, source: Source,
                                  after: Source, rs: seq<Record<E>>, current: Source, expectedHead: Option<string>)
    requires FullSelection(y, mode, selected, skip) && RunOver(y, selected, source, rs)
    requires MakeReceipt(y, mode, selected, skip, source, after, rs).scopeQualified
    requires IdentityOf(current) == IdentityOf(source) && (expectedHead.Some? ==> expectedHead.value == source.head)
    ensures ReceiptProblems(y, MakeReceipt(y, mode, selected, skip, source, after, rs), current, expectedHead) == []
        <==> "" !in skip && NoNullLine(selected, y.here)
  {
    hide MakeReceipt, Produced, FullSelection, DeclaredSkip, Applicable;
    hide RecordProblems, SourceProblems, SelectionProblems, SummaryProblems;
    var v := MakeReceipt(y, mode, selected, skip, source, after, rs);
    ReceiptKeeps(y, mode, selected, skip, source, after, rs);
    ScopedSource(y, mode, selected, skip, source, after, rs, current, expectedHead);
    ScopedSelection(y, mode, selected, skip, source, after, rs);
    ScopedSummary(y, mode, selected, skip, source, after, rs);
    forall i | 0 <= i < |rs|
      ensures RecordProblems(y, source, rs[i]) == []
          <==> (Applicable(selected[i], y.here) ==> !selected[i].statusLine.NullLine?)
    {
      ScopedRecord(y, mode, selected, skip, source, after, rs, i);
      SelectedFromInventory(y, mode, selected, skip, i);
      ScopedRecordProblems(y, selected[i], source, rs[i]);
    }
    NoResultProblems(y, source, rs);
  }

  lemma ReceiptKeeps<E>(y: Policy<E>, mode: Mode, selected: seq<Gate>, skip: set<string>, source: Source, after: Source,
                        rs: seq<Record<E>>)
    ensures var v := MakeReceipt(y, mode, selected, skip, source, after, rs); v.source == source && v.results == rs
  {}

  lemma SelectedFromInventory<E>(y: Policy<E>, mode: Mode, selected: seq<Gate>, skip: set<string>, i: nat)
    requires FullSelection(y, mode, selected, skip) && i < |selected|
    ensures FindGate(y.inventory, selected[i].id) == Some(selected[i])
  {}

  // ---- the two verdicts ----

  /**
   * A fully qualified receipt is also scope-qualified exactly when the inventory gives every gate
   * its platforms, once.
   */
  lemma QualifiedImpliesScoped<E(!new)>(y: Policy<E>, mode: Mode, selected: seq<Gate>, skip: set<string>,
                                        source: Source, after: Source, rs: seq<Record<E>>)
    requires RunOver(y, selected, source, rs)
    requires MakeReceipt(y, mode, selected, skip, source, after, rs).qualified
    ensures MakeReceipt(y, mode, selected, skip, source, after, rs).scopeQualified <==> ReadableInventory(y.inventory)
  {
    hide Produced, ReadableInventory, StabilityProblems;
    forall k | 0 <= k < |y.required| ensures Settled(y, rs, y.required[k]) {
      RequiredPassed(y, selected, source, rs, y.required[k]);
    }
    ScopeLoopExact(y, y.required, rs, []);
  }

  lemma RequiredPassed<E(!new)>(y: Policy<E>, selected: seq<Gate>, source: Source, rs: seq<Record<E>>, id: string)
    requires RunOver(y, selected, source, rs) && id in y.required && Distinct(Ids(rs))
    requires RequiredNotRun(y.required, rs) == {} && RequiredNotPassed(y.required, rs) == {}
    ensures Settled(y, rs, id)
  {
    hide Produced, DeclaredSkip;
    assert id !in Ids(rs) ==> id in RequiredNotRun(y.required, rs);
    var i :| 0 <= i < |rs| && Ids(rs)[i] == id;
    assert rs[i].id !in RequiredNotPassed(y.required, rs);
    FindSelf(rs, i);
    PassIsBacked(y.judges, selected[i], y.here, source, rs[i]);
  }

  // ---- what acceptance means for any receipt ----

  /** Every required gate is a clean pass or a skip the inventory declares for this host. */
  ghost predicate RequiredSettled<E>(y: Policy<E>, rs: seq<Record<E>>) {
    forall k :: 0 <= k < |y.required| ==> Settled(y, rs, y.required[k])
  }

  /**
   * The validator is sound on arbitrary, even forged, receipts: without problems the receipt
   * is for this host and this clean source, settles every required gate, obeys the record
   * contract throughout, and claims full qualification only if every required gate passed.
   */
  lemma AcceptanceIsSound<E>(y: Policy<E>, v: Receipt<E>, current: Source, expectedHead: Option<string>)
    requires ReceiptProblems(y, v, current, expectedHead) == []
    ensures v.platform == y.here && IdentityOf(v.source) == IdentityOf(current) == v.sourceAfter && !current.dirty
    ensures Distinct(Ids(v.results)) && v.selectedIds == multiset(Ids(v.results))
    ensures RequiredSettled(y, v.results)
    ensures forall i :: 0 <= i < |v.results| ==>
      RecordOk(v.results[i]) && StatusLineOk(y, v.results[i]) && ReportOk(y, v.source, v.results[i])
    ensures v.qualified ==>
              forall id :: id in y.required ==> Find(v.results, id).Some? && Find(v.results, id).value.status.Pass?
    ensures v.mode == All ==> IdSet(Ids(v.results)) == IdSet(GateIds(y.inventory)) && v.skippedIds == {}
  {
    hide RecordOk, StatusLineOk, ReportOk, RequiredSettled, ResultProblems, Find, Distinct, SourceProblems,
        SummaryProblems;
    SourceSound(y, v, current, expectedHead);
    RecordsSound(y, v);
    SummarySound(y, v);
  }

  lemma SourceSound<E>(y: Policy<E>, v: Receipt<E>, current: Source, expectedHead: Option<string>)
    requires SourceProblems(y, v, current, expectedHead) == []
    ensures v.platform == y.here && IdentityOf(v.source) == IdentityOf(current) == v.sourceAfter && !current.dirty
  {}

  lemma RecordsSound<E>(y: Policy<E>, v: Receipt<E>)
    requires ResultProblems(y, v.source, v.results) == []
    ensures forall i :: 0 <= i < |v.results| ==>
      RecordOk(v.results[i]) && StatusLineOk(y, v.results[i]) && ReportOk(y, v.source, v.results[i])
  {
    hide RecordOk, StatusLineOk, ReportOk, ResultProblems;
    NoResultProblems(y, v.source, v.results);
    forall i | 0 <= i < |v.results|
      ensures RecordOk(v.results[i]) && StatusLineOk(y, v.results[i]) && ReportOk(y, v.source, v.results[i])
    {
      assert RecordProblems(y, v.source, v.results[i]) == [];
    }
  }

  lemma SummarySound<E>(y: Policy<E>, v: Receipt<E>)
    requires SummaryProblems(y, v) == []
    ensures RequiredSettled(y, v.results)
    ensures v.qualified ==>
              forall id :: id in y.required ==> Find(v.results, id).Some? && Find(v.results, id).value.status.Pass?
  {
    hide Settled, AllComplete, AllScopeComplete, RequiredNotRun, RequiredNotPassed, Find;
    ScopeLoopExact(y, y.required, v.results, []);
    if v.qualified {
      forall id | id in y.required ensures Find(v.results, id).Some? && Find(v.results, id).value.status.Pass? {
        QualifiedPass(y, v.results, id);
      }
    }
  }

  lemma QualifiedPass<E>(y: Policy<E>, rs: seq<Record<E>>, id: string)
    requires id in y.required && RequiredNotRun(y.required, rs) == {} && RequiredNotPassed(y.required, rs) == {}
    ensures Find(rs, id).Some? && Find(rs, id).value.status.Pass?
  {
    FindAbsent(rs, id);
    assert id !in Ids(rs) ==> id in RequiredNotRun(y.required, rs);
    FindIndex(rs, id);
    var i :| 0 <= i < |rs| && Find(rs, id) == Some(rs[i]);
    assert rs[i].id !in RequiredNotPassed(y.required, rs);
  }

  lemma {:induction false} FindIndex<E>(rs: seq<Record<E>>, id: string)
    ensures Find(rs, id).Some? ==> exists i :: 0 <= i < |rs| && Find(rs, id) == Some(rs[i])
  {
    if rs != [] && rs[|rs| - 1].id != id {
      FindIndex(rs[..|rs| - 1], id);
      if Find(rs, id).Some? {
        var i :| 0 <= i < |rs| - 1 && Find(rs, id) == Some(rs[..|rs| - 1][i]);
        assert rs[i] == rs[..|rs| - 1][i];
      }
    }
  }
}
