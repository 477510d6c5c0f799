/** tools/gates/run.py: the scheduler and the receipt together, as main composes them. */
module GateQualification {
  import opened Wrappers
  import opened GateRecord
  import opened GateRunner
  import opened GateReceipt
  import opened GateScheduler

  /** Every answer for a gate of this platform is a record that running it can produce. */
  ghost predicate HonestRunner<E(!new)>(u: Run<E>, y: Policy<E>, source: Source) {
    && ValidRun(u) && u.here == y.here
    && forall i :: 0 <= i < |u.answers| && Applicable(u.selected[i], y.here) ==>
         Produced(y.judges, u.selected[i], y.here, source, u.answers[i])
  }

  /** The scheduler's results are produced records, gate by gate, so receipts can be built on them. */
  lemma ScheduledResultsAreProduced<E(!new)>(u: Run<E>, y: Policy<E>, source: Source, rs: seq<Record<E>>, i: nat)
    requires HonestRunner(u, y, source) && i < |rs| == |u.selected| && Accounted(u, rs, i)
    requires Distinct(GateIds(u.selected))
    ensures Produced(y.judges, u.selected[i], y.here, source, rs[i])
  {
    hide Unapproved, Applicable, FromProcess;
    var g := u.selected[i];
    if !Unapproved(g) && Applicable(g, u.here) && rs[i].blockedBy.None? && rs[i] != Exhausted(g.id) {
      var k :| 0 <= k < |u.answers| && rs[i] == u.answers[k];
      assert GateIds(u.selected)[k] == GateIds(u.selected)[i];
      assert k == i;
      assert Produced(y.judges, u.selected[k], y.here, source, u.answers[k]);
    }
  }

  /** source_preflight_blocker under clean_source_required. */
  function PreflightBlocker(source: Source, requireClean: bool): Option<Blocker> {
    if requireClean && source.dirty then Some(Preflight("dirty-source-preflight")) else None
  }

  predicate CleanSourceRequired(mode: Mode, explicit: bool, allowDirty: bool) {
    !allowDirty && (mode == Required || mode == Profile || mode == All || explicit)
  }

  /** The preflight blocks exactly a dirty source, unless allowed, for a full denominator or on demand. */
  lemma PreflightExactly(source: Source, mode: Mode, explicit: bool, allowDirty: bool)
    ensures PreflightBlocker(source, CleanSourceRequired(mode, explicit, allowDirty)) ==
            if source.dirty && !allowDirty && (explicit || (mode != Tier && mode != ById))
            then Some(Preflight("dirty-source-preflight")) else None
  {}

  /**
   * From the selection to a validated receipt. Whatever the runner answers, a receipt with a
   * qualified platform scope validates on the same source exactly under two conditions on the
   * selection and the host, and a qualified one has a qualified scope exactly if the inventory
   * can be read; on a dirty source nothing is started and nothing qualifies.
   */
  method Qualify<E(!new)>(u: Run<E>, y: Policy<E>, mode: Mode, skip: set<string>, explicit: bool, allowDirty: bool,
                          source: Source, after: Source)
    returns (v: Receipt<E>, launches: seq<Launch>)
    requires HonestRunner(u, y, source) && FullSelection(y, mode, u.selected, skip)
    requires u.preflight == PreflightBlocker(source, CleanSourceRequired(mode, explicit, allowDirty))
    ensures |v.results| == |u.selected| && v.source == source
    ensures v.scopeQualified ==>
      (ReceiptProblems(y, v, source, Some(source.head)) == [] <==> "" !in skip && NoNullLine(u.selected, y.here))
    ensures v.qualified ==> (v.scopeQualified <==> ReadableInventory(y.inventory))
    ensures source.dirty ==> !v.qualified && !v.scopeQualified
    ensures source.dirty && !allowDirty ==> launches == []
  {
    hide HonestRunner, FullSelection, Produced, Accounted, ReceiptProblems, ReadableInventory, NoNullLine;
    RunIsValid(u, y, source);
    DistinctSelection(y, mode, u.selected, skip);
    var rs;
    rs, launches := RunSelectedGates(u);
    v := MakeReceipt(y, mode, u.selected, skip, source, after, rs);
    forall i | 0 <= i < |rs| ensures Produced(y.judges, u.selected[i], y.here, source, rs[i]) {
      ScheduledResultsAreProduced(u, y, source, rs, i);
    }
    if v.scopeQualified { ReceiptRoundTrip(y, mode, u.selected, skip, source, after, rs, source, Some(source.head)); }
    if v.qualified { QualifiedImpliesScoped(y, mode, u.selected, skip, source, after, rs); }
    DirtyNeverQualifies(y, mode, u.selected, skip, source, after, rs);
    ModeIsFull(y, mode, u.selected, skip);
    assert launches != [] ==> LaunchOk(u, rs, launches[0]);
    ReceiptKeeps(y, mode, u.selected, skip, source, after, rs);
  }

  lemma RunIsValid<E(!new)>(u: Run<E>, y: Policy<E>, source: Source)
    requires HonestRunner(u, y, source)
    ensures ValidRun(u) && u.here == y.here
  {}

  lemma DistinctSelection<E>(y: Policy<E>, mode: Mode, selected: seq<Gate>, skip: set<string>)
    requires FullSelection(y, mode, selected, skip)
    ensures Distinct(GateIds(selected))
  {}

  lemma ModeIsFull<E>(y: Policy<E>, mode: Mode, selected: seq<Gate>, skip: set<string>)
    requires FullSelection(y, mode, selected, skip)
    ensures mode == All || mode == Required || mode == Profile
  {}

  lemma DirtyNeverQualifies<E>(y: Policy<E>, mode: Mode, selected: seq<Gate>, skip: set<string>, source: Source,
                               after: Source, rs: seq<Record<E>>)
    ensures source.dirty ==>
      var v := MakeReceipt(y, mode, selected, skip, source, after, rs); !v.qualified && !v.scopeQualified
  {}

  /** The excluded family is real: a passing gate with a null status line writes a receipt that is refused. */
  lemma NullLineBreaksRoundTrip<E(!new)>(j: Judges<E>, source: Source)
    requires !source.dirty
    ensures var g := Gate("g", Some(["any"]), NoGroup, false, NullLine, None);
            var y := Policy([g], ["g"], map[], "linux", j);
            var r := GateProcessResult(j, g, Process(Some(0), None, false, []), 1, None, source);
            var v := MakeReceipt(y, Required, [g], {}, source, source, [r]);
            v.scopeQualified && ReceiptProblems(y, v, source, None) != []
  {
    var g := Gate("g", Some(["any"]), NoGroup, false, NullLine, None);
    var y := Policy([g], ["g"], map[], "linux", j);
    var p := Process(Some(0), None, false, []);
    assert "g" !in REPORTS;
    var r := GateProcessResult(j, g, p, 1, None, source);
    assert r.status.Pass? && r.statusLine.None? && CleanPass(r);
    var v := MakeReceipt(y, Required, [g], {}, source, source, [r]);
    assert Ids([r]) == ["g"] && GateIds([g]) == ["g"];
    assert Find([r], "g") == Some(r) && FindGate([g], "g") == Some(g);
    assert ["g"][1..] == [];
    assert ScopeLoop(y, ["g"], [r], []) == ScopeLoop(y, [], [r], []);
    assert IdSet(["g"]) == {"g"};
    assert v.scopeQualified;
    assert !StatusLineOk(y, r);
    assert [r][..0] == [];
    assert StatusLine("g") in RecordProblems(y, source, r);
    assert StatusLine("g") in ResultProblems(y, source, [r]);
  }

  // ---- an inventory that cannot be read ----

  const NO_PLATFORMS := Gate("g", None, NoGroup, false, NoLine, None)

  function OnlyGate<E>(j: Judges<E>): Policy<E> { Policy([NO_PLATFORMS], ["g"], map[], "linux", j) }

  function CleanRun<E>(j: Judges<E>, source: Source): (r: Record<E>)
    ensures r.id == "g" && r.status.Pass? && r.interrupted.None?
  {
    assert "g" !in REPORTS;
    GateProcessResult(j, NO_PLATFORMS, Process(Some(0), None, false, []), 1, None, source)
  }

  lemma OnlyGateRuns<E(!new)>(j: Judges<E>, source: Source)
    ensures FullSelection(OnlyGate(j), Required, [NO_PLATFORMS], {})
    ensures RunOver(OnlyGate(j), [NO_PLATFORMS], source, [CleanRun(j, source)])
  {
    hide Qualifies, GateProcessResult;
    assert GateIds([NO_PLATFORMS]) == ["g"] && IdSet(["g"]) == {"g"};
    assert FromProcess(j, NO_PLATFORMS, source, CleanRun(j, source));
  }

  /** The failing family is real: a gate without platforms qualifies in full but not in scope. */
  lemma NoPlatformsBreaksScope<E(!new)>(j: Judges<E>, source: Source)
    requires !source.dirty
    ensures FullSelection(OnlyGate(j), Required, [NO_PLATFORMS], {})
    ensures RunOver(OnlyGate(j), [NO_PLATFORMS], source, [CleanRun(j, source)])
    ensures var v := MakeReceipt(OnlyGate(j), Required, [NO_PLATFORMS], {}, source, source, [CleanRun(j, source)]);
            v.qualified && !v.scopeQualified
  {
    hide CleanRun, FullSelection, RunOver, ScopeLoop;
    OnlyGateRuns(j, source);
    var r := CleanRun(j, source);
    assert Ids([r]) == ["g"] && GateIds([NO_PLATFORMS]) == ["g"] && IdSet(["g"]) == {"g"};
    assert [NO_PLATFORMS][0].platforms.None? && !ReadableInventory([NO_PLATFORMS]);
    assert RequiredNotRun(["g"], [r]) == {} && RequiredNotPassed(["g"], [r]) == {};
  }

  // ---- signals the runner does not report ----

  /**
   * A gate that received a signal stops the run exactly when the supervisor settled or the run
   * does not keep going: an exception that swallows the signal is an ordinary failure.
   */
  lemma SignalStops<E(!new)>(u: Run<E>, y: Policy<E>, rs: seq<Record<E>>, i: nat, a: Attempted, timeout: nat,
                             evidence: Option<E>, source: Source)
    requires i < |rs| && i < |u.selected| && timeout > 0 && Received(a).Some?
    requires !Unapproved(u.selected[i]) && Applicable(u.selected[i], u.here)
    requires rs[i] == RunGate(y.judges, u.selected[i], a, timeout, evidence, source)
    ensures Stops(u, rs, i) <==> a.Settled? || !u.keepGoing
    ensures Stops(u, rs, i) <==> !Clear(u, u.selected[i], rs[i])
  {
    hide Applicable, Unapproved, Qualifies;
  }
}
