/**
 * tools/gates/run.py: what a receipt claims and what its validation accepts, spelled out over the
 * results themselves.
 */
module GateContract {
  import opened Wrappers
  import opened GateRecord
  import opened GateRunner
  import opened GateReceipt

  // ---- the facts ----

  /** The gate has a result, and every result of it passed. */
  ghost predicate PassedGate<E>(rs: seq<Record<E>>, id: string) {
    && (exists i :: 0 <= i < |rs| && rs[i].id == id)
    && (forall i :: 0 <= i < |rs| && rs[i].id == id ==> rs[i].status.Pass?)
  }

  ghost predicate EveryoneOnce<E>(rs: seq<Record<E>>) {
    forall i, j :: 0 <= i < j < |rs| ==> rs[i].id != rs[j].id
  }

  /** Clean before and after, and the same in head, tree and paths. */
  predicate SteadySource(before: Source, after: Source) {
    && !before.dirty && !after.dirty
    && before.head == after.head && before.tree == after.tree && before.paths == after.paths
  }

  /** A result that settles its gate: a clean pass, or a skip for a host that the gate's platforms exclude. */
  ghost predicate SettledBy<E>(y: Policy<E>, r: Record<E>) {
    && !r.timedOut && r.interrupted.None? && r.signal.None?
    && match r.status
       case Pass => r.exitCode == Some(0)
       case SkippedPlatform =>
         && r.exitCode.None? && r.id in y.conditional
         && exists k :: 0 <= k < |y.inventory| && Excludes(y, y.inventory[k], r.id)
       case _ => false
  }

  /** The inventory entry of the gate lists its declared condition, and neither "any" nor this host. */
  ghost predicate Excludes<E>(y: Policy<E>, g: Gate, id: string)
    requires id in y.conditional
  {
    && g.id == id && g.platforms.Some? && y.conditional[id] in g.platforms.value
    && "any" !in g.platforms.value && y.here !in g.platforms.value
  }

  ghost predicate RequiredAreSettled<E>(y: Policy<E>, rs: seq<Record<E>>) {
    forall id :: id in y.required ==> exists i :: 0 <= i < |rs| && rs[i].id == id && SettledBy(y, rs[i])
  }

  // ---- the two verdicts of the producer ----

  lemma PassedExactly<E>(required: seq<string>, rs: seq<Record<E>>)
    ensures RequiredNotRun(required, rs) == {} && RequiredNotPassed(required, rs) == {}
        <==> forall id :: id in required ==> PassedGate(rs, id)
  {
    var notRun, notPassed := RequiredNotRun(required, rs), RequiredNotPassed(required, rs);
    assert forall i :: 0 <= i < |rs| ==> Ids(rs)[i] == rs[i].id;
    if notRun == {} && notPassed == {} {
      forall id | id in required ensures PassedGate(rs, id) {
        assert id !in notRun;
        forall i | 0 <= i < |rs| && rs[i].id == id ensures rs[i].status.Pass? {
          assert rs[i].id !in notPassed;
        }
      }
    } else if id :| id in notRun {
      assert id in required && !PassedGate(rs, id);
    } else {
      var id :| id in notPassed;
      assert id in required && !PassedGate(rs, id);
    }
  }

  lemma SteadyExactly(before: Source, after: Source)
    ensures StabilityProblems(before, after) == [] <==> SteadySource(before, after)
  {}

  lemma DistinctExactly<E>(rs: seq<Record<E>>)
    ensures Distinct(Ids(rs)) <==> EveryoneOnce(rs)
  {
    var ids := Ids(rs);
    assert forall i :: 0 <= i < |rs| ==> ids[i] == rs[i].id;
    if EveryoneOnce(rs) {
      forall i, j | 0 <= i < j < |ids| ensures ids[i] != ids[j] {}
    }
    if Distinct(ids) {
      forall i, j | 0 <= i < j < |rs| ensures rs[i].id != rs[j].id { assert ids[i] != ids[j]; }
    }
  }

  /** With distinct results, the loop's notion of a settled gate is the plain one. */
  lemma SettledExactly<E>(y: Policy<E>, rs: seq<Record<E>>, id: string)
    requires EveryoneOnce(rs) && Distinct(GateIds(y.inventory))
    ensures GateReceipt.Settled(y, rs, id) <==> exists i :: 0 <= i < |rs| && rs[i].id == id && SettledBy(y, rs[i])
  {
    DistinctExactly(rs);
    FindIndex(rs, id);
    if Find(rs, id).Some? {
      var i :| 0 <= i < |rs| && Find(rs, id) == Some(rs[i]);
      SettledRecord(y, rs[i]);
      forall j | 0 <= j < |rs| && rs[j].id == id ensures j == i {}
    } else {
      FindAbsent(rs, id);
      assert forall i :: 0 <= i < |rs| ==> Ids(rs)[i] == rs[i].id;
    }
  }

  lemma SettledRecord<E>(y: Policy<E>, r: Record<E>)
    requires Distinct(GateIds(y.inventory))
    ensures CleanPass(r) || DeclaredSkip(y, r, r.id) <==> SettledBy(y, r)
  {
    FindGateIndex(y.inventory, r.id);
    var g := FindGate(y.inventory, r.id);
    if r.id in y.conditional {
      if g.Some? {
        var k :| 0 <= k < |y.inventory| && y.inventory[k] == g.value;
        forall j | 0 <= j < |y.inventory| && y.inventory[j].id == r.id ensures j == k {
          assert GateIds(y.inventory)[j] == GateIds(y.inventory)[k];
        }
      }
    }
  }

  lemma {:induction false} FindGateIndex(gs: seq<Gate>, id: string)
    ensures FindGate(gs, id).None? <==> forall k :: 0 <= k < |gs| ==> gs[k].id != id
    ensures FindGate(gs, id).Some? ==> exists k :: 0 <= k < |gs| && gs[k] == FindGate(gs, id).value
  {
    if gs != [] {
      var n := |gs| - 1;
      FindGateIndex(gs[..n], id);
      assert forall k :: 0 <= k < n ==> gs[..n][k] == gs[k];
    }
  }

  ghost predicate HasResult<E>(rs: seq<Record<E>>, id: string) {
    exists i :: 0 <= i < |rs| && rs[i].id == id
  }

  /** The results are the selection, once each. */
  ghost predicate Complete<E>(selected: seq<Gate>, rs: seq<Record<E>>) {
    EveryoneOnce(rs) && forall id :: HasResult(rs, id) <==> id in GateIds(selected)
  }

  /** Nothing disturbed the run: a steady source, no interrupt, and the whole selection. */
  ghost predicate Undisturbed<E>(selected: seq<Gate>, source: Source, after: Source, rs: seq<Record<E>>) {
    && SteadySource(source, after) && Complete(selected, rs)
    && forall i :: 0 <= i < |rs| ==> rs[i].interrupted.None?
  }

  /**
   * The two verdicts of a receipt, for every selection and result list. It is qualified exactly if
   * the run was undisturbed, every required gate passed, and with --all nothing was skipped and
   * everything passed. The platform scope is qualified exactly if the run was undisturbed, the
   * inventory can be read, every required gate is settled, and with --all nothing was skipped and
   * every other gate passed.
   */
  lemma VerdictsExactly<E>(y: Policy<E>, mode: Mode, selected: seq<Gate>, skip: set<string>, source: Source,
                           after: Source, rs: seq<Record<E>>)
    requires Distinct(GateIds(selected))
    ensures var v := MakeReceipt(y, mode, selected, skip, source, after, rs);
            && (v.qualified <==>
                  && Undisturbed(selected, source, after, rs)
                  && (forall id :: id in y.required ==> PassedGate(rs, id))
                  && (mode == All ==> skip == {} && forall i :: 0 <= i < |rs| ==> rs[i].status.Pass?))
            && (v.scopeQualified <==>
                  && Undisturbed(selected, source, after, rs)
                  && ReadableInventory(y.inventory) && RequiredAreSettled(y, rs)
                  && (mode == All ==>
                        skip == {} && forall i :: 0 <= i < |rs| && rs[i].id !in y.required ==> rs[i].status.Pass?))
  {
    hide RequiredNotRun, RequiredNotPassed, ScopeQualification, PassedGate, Complete, RequiredAreSettled;
    hide StabilityProblems, SteadySource, IdSet, Ids, GateIds, Distinct, ReadableInventory;
    PassedExactly(y.required, rs);
    SteadyExactly(source, after);
    CompleteExactly(selected, rs);
    if Complete(selected, rs) {
      OnceOf(selected, rs);
      ScopeExactly(y, rs);
    }
  }

  lemma OnceOf<E>(selected: seq<Gate>, rs: seq<Record<E>>)
    requires Complete(selected, rs)
    ensures EveryoneOnce(rs)
  {}

  lemma ScopeExactly<E>(y: Policy<E>, rs: seq<Record<E>>)
    requires EveryoneOnce(rs)
    ensures ScopeQualification(y, rs).0 <==> ReadableInventory(y.inventory) && RequiredAreSettled(y, rs)
  {
    hide ScopeLoop, SettledBy, Ids, GateReceipt.Settled;
    ScopeLoopExact(y, y.required, rs, []);
    if ReadableInventory(y.inventory) {
      forall id
        ensures GateReceipt.Settled(y, rs, id) <==> exists i :: 0 <= i < |rs| && rs[i].id == id && SettledBy(y, rs[i])
      {
        SettledExactly(y, rs, id);
      }
      assert (forall k :: 0 <= k < |y.required| ==> GateReceipt.Settled(y, rs, y.required[k]))
        <==> (forall id :: id in y.required ==> GateReceipt.Settled(y, rs, id));
    }
  }

  lemma CompleteExactly<E>(selected: seq<Gate>, rs: seq<Record<E>>)
    requires Distinct(GateIds(selected))
    ensures |rs| == |IdSet(GateIds(selected))| && IdSet(Ids(rs)) == IdSet(GateIds(selected)) && Distinct(Ids(rs))
        <==> Complete(selected, rs)
  {
    hide GateIds;
    DistinctExactly(rs);
    ResultIds(rs);
    SetSize(GateIds(selected));
    if Distinct(Ids(rs)) {
      SetSize(Ids(rs));
      if Complete(selected, rs) {
        forall id ensures id in IdSet(Ids(rs)) <==> id in IdSet(GateIds(selected)) {
          assert HasResult(rs, id) <==> id in GateIds(selected);
        }
        assert IdSet(Ids(rs)) == IdSet(GateIds(selected));
      } else if IdSet(Ids(rs)) == IdSet(GateIds(selected)) {
        forall id ensures HasResult(rs, id) <==> id in GateIds(selected) {
          assert id in IdSet(Ids(rs)) <==> id in IdSet(GateIds(selected));
        }
      }
    }
  }

  lemma ResultIds<E>(rs: seq<Record<E>>)
    ensures forall id :: HasResult(rs, id) <==> id in Ids(rs)
  {
    var ids := Ids(rs);
    assert forall i :: 0 <= i < |rs| ==> ids[i] == rs[i].id;
  }

  lemma {:induction false} SetSize(ids: seq<string>)
    requires Distinct(ids)
    ensures |IdSet(ids)| == |ids|
  {
    if ids != [] {
      var n := |ids| - 1;
      SetSize(ids[..n]);
      assert IdSet(ids) == IdSet(ids[..n]) + {ids[n]};
      assert ids[n] !in IdSet(ids[..n]);
    }
  }

  // ---- what validation accepts ----

  /** The contract between a status and the rest of a record. */
  predicate HonestRecord<E>(r: Record<E>) {
    && (r.interrupted.Some? ==> r.interrupted.value > 0)
    && (r.status.Pass? ==> r.exitCode == Some(0) && !r.timedOut && r.interrupted.None? && r.signal.None?)
    && (r.status.SkippedPlatform? ==> r.exitCode.None?)
    && (r.status.NotRun? ==> r.exitCode.None? || r.exitCode == Some(2))
    && (r.status.Fail? && r.exitCode == Some(0) ==> r.timedOut || r.interrupted.Some?)
  }

  /**
   * A saved PASS: the inventory knows the gate, a line it asks for is retained and satisfies it,
   * and so does a report.
   */
  ghost predicate BackedPass<E>(y: Policy<E>, source: Source, r: Record<E>) {
    && (r.id in {"test", "py-test"} ==> y.judges.report(r.id, r.execution, r.statusLine, source))
    && exists k :: 0 <= k < |y.inventory| && BackedBy(y, y.inventory[k], r)
  }

  predicate BackedBy<E>(y: Policy<E>, g: Gate, r: Record<E>) {
    && g.id == r.id
    && match g.statusLine
       case NoLine => true
       case NullLine => r.statusLine.Some?
       case Line(marker, _) =>
         r.statusLine.Some? && marker + " " <= r.statusLine.value && y.judges.verdict(g.id, r.statusLine.value)
  }

  /** The receipt lists exactly the required gates that were not run, and exactly those that did not pass. */
  ghost predicate ListsRequired<E>(y: Policy<E>, v: Receipt<E>) {
    && (forall id :: id in v.requiredNotRun <==>
          id in y.required && (!HasResult(v.results, id)
                               || exists i :: 0 <= i < |v.results| && v.results[i].id == id
                                   && v.results[i].status.NotRun?))
    && (forall id :: id in v.requiredNotPassed <==>
          id in y.required && exists i :: 0 <= i < |v.results| && v.results[i].id == id && !v.results[i].status.Pass?)
  }

  /** The source of the receipt is the current one, clean and steady. */
  predicate SameSource<E>(v: Receipt<E>, current: Source, expectedHead: Option<string>) {
    && SteadySource(v.source, current) && v.sourceProblems == []
    && v.sourceAfter == Identity(v.source.head, v.source.tree, v.source.paths, false)
    && (expectedHead.Some? ==> v.source.head == expectedHead.value)
  }

  /** A receipt of --all covers the inventory without skips, and everything that is not required passed. */
  ghost predicate CoversAll<E>(y: Policy<E>, v: Receipt<E>) {
    && v.skippedIds == {} && (forall id :: HasResult(v.results, id) <==> id in GateIds(y.inventory))
    && forall i :: 0 <= i < |v.results| && v.results[i].id !in y.required ==> v.results[i].status.Pass?
  }

  ghost predicate Admissible<E>(y: Policy<E>, v: Receipt<E>, current: Source, expectedHead: Option<string>) {
    var rs := v.results;
    && v.platform == y.here && SameSource(v, current, expectedHead)
    && EveryoneOnce(rs) && v.selectedIds == multiset(Ids(rs)) && "" !in v.skippedIds
    && (v.mode == All ==> CoversAll(y, v))
    && (forall i :: 0 <= i < |rs| ==> HonestRecord(rs[i]) && (rs[i].status.Pass? ==> BackedPass(y, v.source, rs[i])))
    && ListsRequired(y, v)
    && (v.qualified <==>
          && (forall id :: id in y.required ==> PassedGate(rs, id))
          && (forall i :: 0 <= i < |rs| ==> rs[i].interrupted.None?)
          && (v.mode == All ==> forall i :: 0 <= i < |rs| ==> rs[i].status.Pass?))
    && ReadableInventory(y.inventory) && RequiredAreSettled(y, rs)
    && v.scopeQualified && v.excluded == NotPassed(y.required, rs)
  }

  lemma RecordExactly<E>(y: Policy<E>, source: Source, r: Record<E>)
    requires Distinct(GateIds(y.inventory))
    ensures RecordProblems(y, source, r) == [] <==> HonestRecord(r) && (r.status.Pass? ==> BackedPass(y, source, r))
  {
    FindGateIndex(y.inventory, r.id);
    var g := FindGate(y.inventory, r.id);
    if g.Some? {
      var k :| 0 <= k < |y.inventory| && y.inventory[k] == g.value;
      forall j | 0 <= j < |y.inventory| && y.inventory[j].id == r.id ensures j == k {
        assert GateIds(y.inventory)[j] == GateIds(y.inventory)[k];
      }
      BackedExactly(y, g.value, r);
    }
  }

  /** A single retained line is judged like the whole output. */
  lemma BackedExactly<E>(y: Policy<E>, g: Gate, r: Record<E>)
    requires g.id == r.id
    ensures BackedBy(y, g, r) <==>
            (g.statusLine != NoLine ==> r.statusLine.Some? && Qualifies(y.judges, g, [r.statusLine.value]))
  {
    if r.statusLine.Some? && g.statusLine.Line? {
      FinalLineIsLast(g.statusLine.marker, [r.statusLine.value], r.statusLine.value);
      assert LastMarked(g.statusLine.marker, [r.statusLine.value], 0)
          <==> g.statusLine.marker + " " <= r.statusLine.value;
    }
  }

  lemma ListsExactly<E>(y: Policy<E>, v: Receipt<E>)
    ensures ListsRequired(y, v) <==>
            && v.requiredNotRun == RequiredNotRun(y.required, v.results)
            && v.requiredNotPassed == RequiredNotPassed(y.required, v.results)
  {
    ResultIds(v.results);
  }

  lemma SourceExactly<E>(y: Policy<E>, v: Receipt<E>, current: Source, expectedHead: Option<string>)
    ensures SourceProblems(y, v, current, expectedHead) == [] <==>
            v.platform == y.here && SameSource(v, current, expectedHead)
  {}

  lemma SelectionExactly<E>(y: Policy<E>, v: Receipt<E>)
    ensures SelectionProblems(y, v) == [] <==>
            && EveryoneOnce(v.results) && v.selectedIds == multiset(Ids(v.results)) && "" !in v.skippedIds
            && (v.mode == All ==> CoversAll(y, v))
  {
    DistinctExactly(v.results);
    ResultIds(v.results);
    CoversExactly(y, v);
  }

  lemma CoversExactly<E>(y: Policy<E>, v: Receipt<E>)
    ensures AllScopeComplete(y, v) <==> (v.mode == All ==> CoversAll(y, v))
  {
    SameIds(v.results, y.inventory);
  }

  lemma SameIds<E>(rs: seq<Record<E>>, gs: seq<Gate>)
    ensures IdSet(Ids(rs)) == IdSet(GateIds(gs)) <==> forall id :: HasResult(rs, id) <==> id in GateIds(gs)
  {
    ResultIds(rs);
    hide HasResult, Ids, GateIds;
    var mine, theirs := IdSet(Ids(rs)), IdSet(GateIds(gs));
    if forall id :: HasResult(rs, id) <==> id in GateIds(gs) {
      forall id ensures id in mine <==> id in theirs { assert HasResult(rs, id) <==> id in GateIds(gs); }
    } else if mine == theirs {
      forall id ensures HasResult(rs, id) <==> id in GateIds(gs) { assert id in mine <==> id in theirs; }
    }
  }

  lemma SummaryExactly<E>(y: Policy<E>, v: Receipt<E>, current: Source, expectedHead: Option<string>)
    requires SameSource(v, current, expectedHead) && EveryoneOnce(v.results) && (v.mode == All ==> CoversAll(y, v))
    ensures SummaryProblems(y, v) == [] <==>
            && ListsRequired(y, v)
            && (v.qualified <==>
                  && (forall id :: id in y.required ==> PassedGate(v.results, id))
                  && (forall i :: 0 <= i < |v.results| ==> v.results[i].interrupted.None?)
                  && (v.mode == All ==> forall i :: 0 <= i < |v.results| ==> v.results[i].status.Pass?))
            && ReadableInventory(y.inventory) && RequiredAreSettled(y, v.results)
            && v.scopeQualified && v.excluded == NotPassed(y.required, v.results)
  {
    hide RequiredNotRun, RequiredNotPassed, PassedGate, RequiredAreSettled, ListsRequired, ScopeLoop, ReadableInventory;
    hide AllScopeComplete, CoversAll, NotPassed;
    ListsExactly(y, v);
    PassedExactly(y.required, v.results);
    ScopeExactly(y, v.results);
    ScopeLoopExact(y, y.required, v.results, []);
    CoversExactly(y, v);
    CoversInventory(y, v);
  }

  lemma CoversInventory<E>(y: Policy<E>, v: Receipt<E>)
    ensures CoversAll(y, v) ==> InventoryComplete(y, v)
  {
    SameIds(v.results, y.inventory);
  }

  /**
   * Validation is exact on arbitrary, even forged, receipts: it finds no problem exactly if the
   * receipt is for this host and the current clean source, lists every result once, is complete for
   * --all, has only honest records and backed passes, names exactly the required gates that were
   * not run and that did not pass, claims to be qualified exactly when it is, and settles every
   * required gate with exactly the right exclusions.
   */
  lemma AcceptanceExactly<E>(y: Policy<E>, v: Receipt<E>, current: Source, expectedHead: Option<string>)
    ensures ReceiptProblems(y, v, current, expectedHead) == [] <==> Admissible(y, v, current, expectedHead)
  {
    hide SourceProblems, SelectionProblems, ResultProblems, SummaryProblems, SameSource, CoversAll, ListsRequired;
    hide HonestRecord, BackedPass, RequiredAreSettled, ReadableInventory, PassedGate, EveryoneOnce, NotPassed;
    SourceExactly(y, v, current, expectedHead);
    SelectionExactly(y, v);
    if SourceProblems(y, v, current, expectedHead) == [] && SelectionProblems(y, v) == [] {
      SummaryExactly(y, v, current, expectedHead);
      if ReadableInventory(y.inventory) {
        ReadableIds(y.inventory);
        NoResultProblems(y, v.source, v.results);
        forall i | 0 <= i < |v.results|
          ensures RecordProblems(y, v.source, v.results[i]) == [] <==>
                  HonestRecord(v.results[i]) && (v.results[i].status.Pass? ==> BackedPass(y, v.source, v.results[i]))
        {
          RecordExactly(y, v.source, v.results[i]);
        }
      }
    }
  }

  lemma ReadableIds(gs: seq<Gate>)
    requires ReadableInventory(gs)
    ensures Distinct(GateIds(gs))
  {}
}
