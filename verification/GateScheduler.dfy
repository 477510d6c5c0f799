/** tools/gates/run.py: run_selected_gates. */
module GateScheduler {
  import opened Wrappers
  import opened GateRecord

  /** A started gate: its position in the selection and the first position of its step. */
  datatype Launch = Launch(position: nat, step: nat)

  /** The fixed inputs of a run; position i of `answers` is what the runner returns for gate i. */
  datatype Run<E> = Run(
    selected: seq<Gate>, here: string, remaining: Option<seq<int>>, keepGoing: bool, batched: bool,
    answers: seq<Record<E>>, preflight: Option<Blocker>)

  /** The runner answers for every gate, under the gate's own id, and never claims to be blocked. */
  ghost predicate ValidRun<E>(u: Run<E>) {
    && |u.answers| == |u.selected|
    && (u.remaining.Some? ==> |u.remaining.value| == |u.selected|)
    && (u.preflight.Some? ==> u.preflight.value.Preflight?)
    && forall i :: 0 <= i < |u.answers| ==> u.answers[i].id == u.selected[i].id && u.answers[i].blockedBy.None?
  }

  /** Gate i would find the global budget spent. */
  predicate Spent<E>(u: Run<E>, i: nat) {
    u.remaining.Some? && i < |u.remaining.value| && u.remaining.value[i] <= 0
  }

  // ---- what a partial list of results must satisfy ----

  /** Nothing about this result stops later gates. */
  predicate Clear<E>(u: Run<E>, g: Gate, r: Record<E>) {
    && r.interrupted.None? && r.timeoutSeconds != Some(0) && r.blockedBy.None? && !Unapproved(g)
    && (u.keepGoing || r.status.Pass? || !Applicable(g, u.here))
  }

  /** Nothing before position `step` of the results stops the run. */
  ghost predicate ClearFrom<E>(u: Run<E>, rs: seq<Record<E>>, step: nat) {
    step <= |rs| && step <= |u.selected| && ClearUpTo(u, rs, step)
  }

  ghost predicate ClearUpTo<E>(u: Run<E>, rs: seq<Record<E>>, n: nat)
    requires n <= |rs| && n <= |u.selected|
  {
    u.preflight.None? && forall i :: 0 <= i < n ==> Clear(u, u.selected[i], rs[i])
  }

  /** A gate that blocks later ones by its own id: refused, out of budget, or not passed without keep_going. */
  predicate Blames<E>(u: Run<E>, g: Gate, r: Record<E>, id: string) {
    && r.id == id
    && (Unapproved(g) || r.timeoutSeconds == Some(0) || (!u.keepGoing && !r.status.Pass? && Applicable(g, u.here)))
  }

  /** The blocker names the preflight, a signal, or an earlier gate that stops the run. */
  ghost predicate Names<E>(u: Run<E>, rs: seq<Record<E>>, b: Blocker, n: nat)
    requires n <= |rs| && n <= |u.selected|
  {
    match b
    case Preflight(_) => u.preflight == Some(b)
    case Signal(s) => exists j :: 0 <= j < n && rs[j].interrupted == Some(s)
    case ByGate(id) => exists j :: 0 <= j < n && Blames(u, u.selected[j], rs[j], id)
  }

  /** Position i is accounted for: it carries the gate's id and the status its policy forces. */
  ghost predicate Accounted<E>(u: Run<E>, rs: seq<Record<E>>, i: nat)
    requires i < |rs| && i < |u.selected| && ValidRun(u)
  {
    var g, r := u.selected[i], rs[i];
    && r.id == g.id
    && (r.blockedBy.Some? ==> Names(u, rs, r.blockedBy.value, i) && r == Unrun(g.id, r.blockedBy.value))
    && if Unapproved(g) then r == Bare(g.id, Fail)
       else if !Applicable(g, u.here) then r == Bare(g.id, SkippedPlatform)
       else if r.blockedBy.Some? then true
       else if g.group == NoGroup then
         ClearUpTo(u, rs, i) && r == (if Spent(u, i) then Exhausted(g.id) else u.answers[i])
       else
         WaveAnswer(u, g.id, r) && exists step: nat :: step <= i < step + PARALLEL_GATE_LIMIT && ClearFrom(u, rs, step)
  }

  /** The record of a started wave member: the runner's answer, or the spent budget of a gate of this id. */
  ghost predicate WaveAnswer<E>(u: Run<E>, id: string, r: Record<E>)
    requires ValidRun(u)
  {
    || (r == Exhausted(id) && OutOfBudget(u, id))
    || exists k :: 0 <= k < |u.answers| && r == u.answers[k] && (u.batched || !Spent(u, k))
  }

  /** A gate of this id found the budget spent. */
  ghost predicate OutOfBudget<E>(u: Run<E>, id: string)
    requires ValidRun(u)
  {
    exists k :: 0 <= k < |u.selected| && u.selected[k].id == id && Spent(u, k)
  }

  ghost predicate LaunchOk<E>(u: Run<E>, rs: seq<Record<E>>, l: Launch)
    requires l.step <= |rs|
  {
    && l.step <= l.position < l.step + PARALLEL_GATE_LIMIT && l.position < |u.selected|
    && Applicable(u.selected[l.position], u.here) && !Unapproved(u.selected[l.position])
    && l.step <= |u.selected| && ClearUpTo(u, rs, l.step)
    && Budgeted(u, l)
  }

  /** There was budget left: for the whole batch when a batch is supervised as one, else for the gate itself. */
  predicate Budgeted<E>(u: Run<E>, l: Launch)
    requires l.position < |u.selected|
  {
    !Spent(u, if u.batched && u.selected[l.position].group != NoGroup then l.step else l.position)
  }

  /** Position i holds a record that only a started runner can have produced. */
  ghost predicate Ran<E>(u: Run<E>, rs: seq<Record<E>>, i: nat)
    requires i < |rs| && i < |u.selected|
  {
    var g := u.selected[i];
    rs[i].blockedBy.None? && rs[i] != Exhausted(g.id) && !Unapproved(g) && Applicable(g, u.here)
  }

  /** A gate of this id is among the starts. */
  ghost predicate Started<E>(u: Run<E>, launches: seq<Launch>, id: string) {
    exists k :: 0 <= k < |launches| && launches[k].position < |u.selected| && u.selected[launches[k].position].id == id
  }

  /** No gate among these is blamed for a spent budget. */
  ghost predicate NoneBlamed<E>(rs: seq<Record<E>>) {
    forall i :: 0 <= i < |rs| ==> rs[i].timeoutSeconds != Some(0)
  }

  /** At most one gate is blamed for a spent budget. */
  ghost predicate OneBlamed<E>(rs: seq<Record<E>>) {
    forall i, j :: 0 <= i < j < |rs| && rs[i].timeoutSeconds == Some(0) ==> rs[j].timeoutSeconds != Some(0)
  }

  /** The invariant of the whole scheduler. */
  ghost predicate Progress<E>(u: Run<E>, rs: seq<Record<E>>, blocked: Option<Blocker>, launches: seq<Launch>) {
    && ValidRun(u) && |rs| <= |u.selected|
    && (forall i :: 0 <= i < |rs| ==> Accounted(u, rs, i))
    && (blocked.Some? ==> Names(u, rs, blocked.value, |rs|))
    && (blocked.None? ==> ClearUpTo(u, rs, |rs|))
    && (forall k :: 0 <= k < |launches| ==> launches[k].step <= |rs| && LaunchOk(u, rs, launches[k]))
    && (forall i :: 0 <= i < |rs| && Ran(u, rs, i) ==> Started(u, launches, rs[i].id))
    && OneBlamed(rs)
  }

  // ---- appending one result ----

  lemma NamesGrows<E>(u: Run<E>, rs: seq<Record<E>>, r: Record<E>, b: Blocker, n: nat)
    requires n <= |rs| < |u.selected| && Names(u, rs, b, n)
    ensures Names(u, rs + [r], b, n) && Names(u, rs + [r], b, |rs| + 1)
  {
    match b
    case Preflight(_) =>
    case Signal(s) =>
      var j :| 0 <= j < n && rs[j].interrupted == Some(s);
      assert (rs + [r])[j] == rs[j];
    case ByGate(id) =>
      var j :| 0 <= j < n && Blames(u, u.selected[j], rs[j], id);
      assert (rs + [r])[j] == rs[j];
  }

  lemma AccountedGrows<E>(u: Run<E>, rs: seq<Record<E>>, r: Record<E>, i: nat)
    requires ValidRun(u) && i < |rs| < |u.selected| && Accounted(u, rs, i)
    ensures Accounted(u, rs + [r], i)
  {
    hide Applicable, Unapproved, Clear, WaveAnswer;
    if rs[i].blockedBy.Some? { NamesGrows(u, rs, r, rs[i].blockedBy.value, i); }
    var g := u.selected[i];
    if !Unapproved(g) && Applicable(g, u.here) && rs[i].blockedBy.None? && g.group != NoGroup {
      var step: nat :| step <= i < step + PARALLEL_GATE_LIMIT && ClearFrom(u, rs, step);
      assert ClearFrom(u, rs + [r], step);
    }
  }

  /** One more accounted result, with a blocker that is justified or absent, keeps the invariant. */
  lemma Append<E>(u: Run<E>, rs: seq<Record<E>>, blocked: Option<Blocker>, launches: seq<Launch>,
                  r: Record<E>, next: Option<Blocker>)
    requires Progress(u, rs, blocked, launches) && |rs| < |u.selected|
    requires Accounted(u, rs + [r], |rs|)
    requires next.Some? ==> Names(u, rs + [r], next.value, |rs| + 1)
    requires next.None? ==> blocked.None? && Clear(u, u.selected[|rs|], r)
    requires Ran(u, rs + [r], |rs|) ==> Started(u, launches, r.id)
    requires r.timeoutSeconds == Some(0) ==> NoneBlamed(rs)
    ensures Progress(u, rs + [r], next, launches)
  {
    hide Clear, Applicable, Unapproved, Started;
    var more := rs + [r];
    forall i | 0 <= i < |more| ensures Accounted(u, more, i) {
      if i < |rs| { AccountedGrows(u, rs, r, i); }
    }
    forall k | 0 <= k < |launches| ensures LaunchOk(u, more, launches[k]) {
      assert LaunchOk(u, rs, launches[k]);
      assert forall i :: 0 <= i < launches[k].step ==> more[i] == rs[i];
    }
    forall i | 0 <= i < |more| && Ran(u, more, i) ensures Started(u, launches, more[i].id) {
      if i < |rs| { assert Ran(u, rs, i); }
    }
  }

  lemma LaunchAdded<E>(u: Run<E>, rs: seq<Record<E>>, blocked: Option<Blocker>, launches: seq<Launch>, l: Launch)
    requires Progress(u, rs, blocked, launches) && l.step <= |rs| && LaunchOk(u, rs, l)
    ensures Progress(u, rs, blocked, launches + [l])
    ensures l.position < |u.selected| && Started(u, launches + [l], u.selected[l.position].id)
  {
    hide Accounted, Names, Ran;
    var more := launches + [l];
    assert more[|launches|] == l;
    forall i | 0 <= i < |rs| && Ran(u, rs, i) ensures Started(u, more, rs[i].id) {
      StartedGrows(u, launches, [l], rs[i].id);
    }
  }

  lemma StartedGrows<E>(u: Run<E>, a: seq<Launch>, b: seq<Launch>, id: string)
    requires Started(u, a, id)
    ensures Started(u, a + b, id)
  {
    var k :| 0 <= k < |a| && a[k].position < |u.selected| && u.selected[a[k].position].id == id;
    assert (a + b)[k] == a[k];
  }

  // ---- serial gates ----

  /** The blocker after one recorded result, when none was set before. */
  function BlockerAfter<E>(r: Record<E>, id: string, keepGoing: bool): Option<Blocker> {
    if r.interrupted.Some? then Some(Signal(r.interrupted.value))
    else if r.timeoutSeconds == Some(0) then Some(ByGate(id))
    else if !r.status.Pass? && !keepGoing then Some(ByGate(id))
    else None
  }

  lemma BlockerAfterOk<E>(u: Run<E>, rs: seq<Record<E>>, r: Record<E>)
    requires |rs| < |u.selected| && r.id == u.selected[|rs|].id && r.blockedBy.None?
    requires !Unapproved(u.selected[|rs|]) && Applicable(u.selected[|rs|], u.here)
    ensures var b := BlockerAfter(r, r.id, u.keepGoing);
            && (b.Some? ==> Names(u, rs + [r], b.value, |rs| + 1))
            && (b.None? ==> Clear(u, u.selected[|rs|], r))
  {
    hide Unapproved;
    var j := |rs|;
    assert (rs + [r])[j] == r;
  }

  /** One turn of the outer loop for a gate that is not started. */
  method RecordUnstarted<E>(u: Run<E>, rs: seq<Record<E>>, blocked: Option<Blocker>, ghost launches: seq<Launch>)
    returns (r: Record<E>, next: Option<Blocker>)
    requires Progress(u, rs, blocked, launches) && |rs| < |u.selected|
    requires var g := u.selected[|rs|]; Unapproved(g) || !Applicable(g, u.here) || blocked.Some?
    ensures Progress(u, rs + [r], next, launches)
    ensures blocked.Some? ==> next.Some?
  {
    var g := u.selected[|rs|];
    hide Applicable, Unapproved;
    next := blocked;
    if Unapproved(g) {
      r := Bare(g.id, Fail);
      next := Some(ByGate(g.id));
      assert (rs + [r])[|rs|] == r;
    } else if !Applicable(g, u.here) {
      r := Bare(g.id, SkippedPlatform);
      if blocked.Some? { NamesGrows(u, rs, r, blocked.value, |rs|); }
    } else {
      r := Unrun(g.id, blocked.value);
      NamesGrows(u, rs, r, blocked.value, |rs|);
    }
    Append(u, rs, blocked, launches, r, next);
  }

  /** A serial gate: run_with_deadline, then the blocker rules. */
  method RunSerial<E>(u: Run<E>, rs: seq<Record<E>>, launches: seq<Launch>)
    returns (r: Record<E>, next: Option<Blocker>, more: seq<Launch>)
    requires Progress(u, rs, None, launches) && |rs| < |u.selected|
    requires !Unapproved(u.selected[|rs|]) && Applicable(u.selected[|rs|], u.here) && u.selected[|rs|].group == NoGroup
    ensures Progress(u, rs + [r], next, more)
  {
    hide Applicable, Unapproved, Clear;
    var i := |rs|;
    var id := u.selected[i].id;
    more := launches;
    if Spent(u, i) {
      r := Exhausted(id);
    } else {
      r := u.answers[i];
      more := launches + [Launch(i, i)];
      LaunchAdded(u, rs, None, launches, Launch(i, i));
    }
    next := BlockerAfter(r, id, u.keepGoing);
    BlockerAfterOk(u, rs, r);
    assert forall j :: 0 <= j < i ==> (rs + [r])[j] == rs[j];
    ClearOf(u, rs, launches);
    Append(u, rs, None, more, r, next);
  }

  // ---- waves ----

  /** The end of the contiguous wave that starts at `start`. */
  function WaveEnd(selected: seq<Gate>, group: Group, start: nat): (end: nat)
    requires start <= |selected|
    ensures start <= end <= |selected|
    ensures forall i :: start <= i < end ==> InGroup(selected[i], group)
    ensures start < |selected| && InGroup(selected[start], group) ==> start < end
    ensures end < |selected| ==> !InGroup(selected[end], group)
    decreases |selected| - start
  {
    if start < |selected| && InGroup(selected[start], group) then WaveEnd(selected, group, start + 1) else start
  }

  /** What the answers of a batch satisfy, whichever runner produced them. */
  ghost predicate BatchOutcome<E>(u: Run<E>, lo: nat, out: seq<Record<E>>, launched: seq<nat>)
    requires ValidRun(u) && lo + |out| <= |u.selected|
  {
    && (forall j :: 0 <= j < |out| ==> out[j].id == u.selected[lo + j].id && BatchOrigin(u, out[j]))
    && (forall j :: 0 <= j < |out| && out[j].blockedBy.Some? ==>
          j > 0 && out[0] == Exhausted(out[0].id) && out[j] == Unrun(out[j].id, ByGate(out[0].id)))
    && (forall k :: 0 <= k < |launched| ==>
          lo <= launched[k] < lo + |out| && !Spent(u, if u.batched then lo else launched[k]))
    && (u.batched && Spent(u, lo) && out != [] ==> SpentOutcome(u, lo, out) && launched == [])
    && (forall j :: 0 <= j < |out| && out[j].blockedBy.None? && out[j] != Exhausted(out[j].id) ==>
          StartedHere(u, launched, out[j].id))
  }

  /** The whole budget of a batch is spent: its first gate fails, and the others are blocked by it. */
  ghost predicate SpentOutcome<E>(u: Run<E>, lo: nat, out: seq<Record<E>>)
    requires 0 < |out| && lo + |out| <= |u.selected|
  {
    && out[0] == Exhausted(u.selected[lo].id)
    && forall j :: 0 < j < |out| ==> out[j] == Unrun(u.selected[lo + j].id, ByGate(u.selected[lo].id))
  }

  /**
   * The answers of a batch in selection order, whatever order they completed in. The batch
   * supervisor sees one budget for the whole batch; independent runners each see their own.
   */
  method RunBatch<E>(u: Run<E>, lo: nat, hi: nat) returns (out: seq<Record<E>>, launched: seq<nat>)
    requires ValidRun(u) && lo < hi <= |u.selected|
    ensures |out| == hi - lo && BatchOutcome(u, lo, out, launched)
  {
    if u.batched && Spent(u, lo) {
      out := SpentBatch(u, lo, hi);
      return out, [];
    }
    var byId;
    byId, launched := AnswersById(u, lo, hi);
    out := seq(hi - lo, j requires 0 <= j < hi - lo && u.selected[lo + j].id in byId => byId[u.selected[lo + j].id]);
    hide AnswerOk, BatchOutcome;
    AnswersAreOutcome(u, lo, out, launched);
  }

  lemma AnswersAreOutcome<E>(u: Run<E>, lo: nat, out: seq<Record<E>>, launched: seq<nat>)
    requires ValidRun(u) && lo + |out| <= |u.selected|
    requires forall j :: 0 <= j < |out| ==> AnswerOk(u, launched, u.selected[lo + j].id, out[j])
    requires forall k :: 0 <= k < |launched| ==> lo <= launched[k] < lo + |out| && (u.batched || !Spent(u, launched[k]))
    requires !(u.batched && Spent(u, lo))
    ensures BatchOutcome(u, lo, out, launched)
  {
    hide BatchOrigin, StartedHere;
  }

  /** The whole budget is spent: the first gate fails, the others are blocked by it. */
  method SpentBatch<E>(u: Run<E>, lo: nat, hi: nat) returns (out: seq<Record<E>>)
    requires ValidRun(u) && lo < hi <= |u.selected| && Spent(u, lo)
    ensures |out| == hi - lo && BatchOutcome(u, lo, out, [])
  {
    var first := u.selected[lo].id;
    out := [Exhausted(first)];
    var j := lo + 1;
    while j < hi
      invariant lo < j <= hi && |out| == j - lo && out[0] == Exhausted(first)
      invariant forall k :: 0 < k < |out| ==> out[k] == Unrun(u.selected[lo + k].id, ByGate(first))
    {
      out := out + [Unrun(u.selected[j].id, ByGate(first))];
      j := j + 1;
    }
  }

  ghost predicate AnswerOk<E>(u: Run<E>, launched: seq<nat>, id: string, r: Record<E>)
    requires ValidRun(u)
  {
    && r.id == id && r.blockedBy.None? && BatchOrigin(u, r)
    && (r != Exhausted(id) ==> StartedHere(u, launched, id))
  }

  /** The `by_id` table of a batch: with repeated ids the last answer stays. */
  method AnswersById<E>(u: Run<E>, lo: nat, hi: nat) returns (byId: map<string, Record<E>>, launched: seq<nat>)
    requires ValidRun(u) && lo < hi <= |u.selected|
    ensures forall k :: lo <= k < hi ==> u.selected[k].id in byId
    ensures forall id :: id in byId ==> AnswerOk(u, launched, id, byId[id])
    ensures forall k :: 0 <= k < |launched| ==> lo <= launched[k] < hi && (u.batched || !Spent(u, launched[k]))
  {
    byId, launched := map[], [];
    var i := lo;
    while i < hi
      invariant lo <= i <= hi
      invariant forall k :: lo <= k < i ==> u.selected[k].id in byId
      invariant forall id :: id in byId ==> AnswerOk(u, launched, id, byId[id])
      invariant forall k :: 0 <= k < |launched| ==> lo <= launched[k] < i && (u.batched || !Spent(u, launched[k]))
    {
      var id := u.selected[i].id;
      if !u.batched && Spent(u, i) {
        byId := byId[id := Exhausted(id)];
      } else {
        ghost var table := byId;
        AnswersGrow(u, launched, i, table);
        byId := byId[id := u.answers[i]];
        launched := launched + [i];
      }
      i := i + 1;
    }
  }

  lemma AnswersGrow<E>(u: Run<E>, launched: seq<nat>, i: nat, byId: map<string, Record<E>>)
    requires ValidRun(u) && i < |u.selected| && (u.batched || !Spent(u, i))
    requires forall id :: id in byId ==> AnswerOk(u, launched, id, byId[id])
    ensures forall id :: id in byId ==> AnswerOk(u, launched + [i], id, byId[id])
    ensures AnswerOk(u, launched + [i], u.selected[i].id, u.answers[i])
  {
    var more := launched + [i];
    assert more[|launched|] == i;
    assert forall k :: 0 <= k < |launched| ==> more[k] == launched[k];
  }

  ghost predicate StartedHere<E>(u: Run<E>, launched: seq<nat>, id: string) {
    exists k :: 0 <= k < |launched| && launched[k] < |u.selected| && u.selected[launched[k]].id == id
  }

  ghost predicate BatchOrigin<E>(u: Run<E>, r: Record<E>)
    requires ValidRun(u)
  {
    r.blockedBy.Some? || WaveAnswer(u, r.id, r)
  }

  /** The blocker rules for one result of a batch; `deadline` is the first gate whose budget was spent. */
  function BatchResult<E>(r: Record<E>, id: string, deadline: Option<string>): Record<E> {
    if r.timeoutSeconds == Some(0) && deadline.Some? then Unrun(id, ByGate(deadline.value)) else r
  }

  function BatchBlocker<E>(r: Record<E>, id: string, deadline: Option<string>, blocked: Option<Blocker>,
                           keepGoing: bool)
    : Option<Blocker>
  {
    if r.timeoutSeconds == Some(0) && deadline.None? then Some(ByGate(id))
    else if blocked.Some? then blocked
    else BlockerAfter(BatchResult(r, id, deadline), id, keepGoing)
  }

  ghost predicate DeadlineNamed<E>(rs: seq<Record<E>>, deadline: Option<string>) {
    deadline.Some? ==> exists j :: 0 <= j < |rs| && rs[j].id == deadline.value && rs[j].timeoutSeconds == Some(0)
  }

  lemma DeadlineGrows<E>(rs: seq<Record<E>>, r: Record<E>, deadline: Option<string>)
    requires DeadlineNamed(rs, deadline)
    ensures DeadlineNamed(rs + [r], deadline)
  {
    if deadline.Some? {
      var j :| 0 <= j < |rs| && rs[j].id == deadline.value && rs[j].timeoutSeconds == Some(0);
      assert (rs + [r])[j] == rs[j];
    }
  }

  /** A result of a wave member is accounted for. */
  lemma BatchAccounted<E>(u: Run<E>, rs: seq<Record<E>>, s: Record<E>, step: nat)
    requires ValidRun(u) && |rs| < |u.selected| && step <= |rs| < step + PARALLEL_GATE_LIMIT && ClearFrom(u, rs, step)
    requires var g := u.selected[|rs|]; s.id == g.id && !Unapproved(g) && Applicable(g, u.here) && g.group != NoGroup
    requires s.blockedBy.Some? ==> Names(u, rs, s.blockedBy.value, |rs|) && s == Unrun(s.id, s.blockedBy.value)
    requires s.blockedBy.None? ==> WaveAnswer(u, s.id, s)
    ensures Accounted(u, rs + [s], |rs|)
  {
    hide Applicable, Unapproved, Clear, WaveAnswer, Names;
    if s.blockedBy.Some? { NamesGrows(u, rs, s, s.blockedBy.value, |rs|); }
    assert ClearFrom(u, rs + [s], step);
    assert (rs + [s])[|rs|] == s;
  }

  /** Recording one batch result keeps the invariant. */
  lemma BatchAppend<E>(u: Run<E>, rs: seq<Record<E>>, blocked: Option<Blocker>, launches: seq<Launch>,
                       r: Record<E>, deadline: Option<string>, step: nat)
    requires Progress(u, rs, blocked, launches) && |rs| < |u.selected|
    requires step <= |rs| < step + PARALLEL_GATE_LIMIT && ClearFrom(u, rs, step)
    requires var g := u.selected[|rs|]; r.id == g.id && !Unapproved(g) && Applicable(g, u.here) && g.group != NoGroup
    requires BatchOrigin(u, r) && DeadlineNamed(rs, deadline) && (deadline.Some? ==> blocked.Some?)
    requires deadline.None? ==> NoneBlamed(rs)
    requires r.blockedBy.Some? ==>
               blocked.Some? && Names(u, rs, r.blockedBy.value, |rs|) && r == Unrun(r.id, r.blockedBy.value)
    requires r.blockedBy.None? && r != Exhausted(r.id) ==> Started(u, launches, r.id)
    ensures Progress(u, rs + [BatchResult(r, r.id, deadline)], BatchBlocker(r, r.id, deadline, blocked, u.keepGoing),
                     launches)
  {
    hide Applicable, Unapproved, Clear, Progress, Started;
    var s := BatchResult(r, r.id, deadline);
    var next := BatchBlocker(r, r.id, deadline, blocked, u.keepGoing);
    var n := |rs|;
    assert (rs + [s])[n] == s;
    ValidOf(u, rs, blocked, launches);
    if s != r {
      var j :| 0 <= j < |rs| && rs[j].id == deadline.value && rs[j].timeoutSeconds == Some(0);
      assert Names(u, rs, ByGate(deadline.value), n);
    }
    if s.blockedBy.Some? { NamesGrows(u, rs, s, s.blockedBy.value, n); }
    BatchAccounted(u, rs, s, step);
    hide Accounted;
    if blocked.Some? { BlockedOf(u, rs, blocked, launches); NamesGrows(u, rs, s, blocked.value, n); }
    if s.blockedBy.None? { BlockerAfterOk(u, rs, s); }
    Append(u, rs, blocked, launches, s, next);
  }

  lemma ValidOf<E>(u: Run<E>, rs: seq<Record<E>>, blocked: Option<Blocker>, launches: seq<Launch>)
    requires Progress(u, rs, blocked, launches)
    ensures ValidRun(u) && |rs| <= |u.selected|
  {}

  lemma ClearOf<E>(u: Run<E>, rs: seq<Record<E>>, launches: seq<Launch>)
    requires Progress(u, rs, None, launches)
    ensures ClearFrom(u, rs, |rs|) && NoneBlamed(rs)
  {}

  lemma BlockedOf<E>(u: Run<E>, rs: seq<Record<E>>, blocked: Option<Blocker>, launches: seq<Launch>)
    requires Progress(u, rs, blocked, launches) && blocked.Some?
    ensures Names(u, rs, blocked.value, |rs|)
  {}

  /** The loop over a finished batch: results in order, at most one gate blamed for a spent budget. */
  method RecordBatch<E>(u: Run<E>, before: seq<Record<E>>, launches: seq<Launch>, out: seq<Record<E>>)
    returns (rs: seq<Record<E>>, blocked: Option<Blocker>)
    requires Progress(u, before, None, launches)
    requires 0 < |out| <= PARALLEL_GATE_LIMIT && |before| + |out| <= |u.selected|
    requires forall j :: 0 <= j < |out| ==> Member(u, |before| + j, out[j])
    requires forall j :: 0 <= j < |out| && out[j].blockedBy.None? && out[j] != Exhausted(out[j].id) ==>
      Started(u, launches, out[j].id)
    requires forall j :: 0 <= j < |out| && out[j].blockedBy.Some? ==>
      j > 0 && out[0] == Exhausted(out[0].id) && out[j] == Unrun(out[j].id, ByGate(out[0].id))
    ensures |rs| == |before| + |out| && before <= rs
    ensures Progress(u, rs, blocked, launches)
  {
    hide Progress, Applicable, Unapproved, BatchOrigin, Names, Started;
    rs, blocked := before, None;
    ValidOf(u, rs, blocked, launches);
    ClearOf(u, rs, launches);
    var deadline: Option<string> := None;
    var j := 0;
    while j < |out|
      invariant 0 <= j <= |out| && |rs| == |before| + j && before <= rs
      invariant Progress(u, rs, blocked, launches) && ValidRun(u)
      invariant ClearFrom(u, rs, |before|) && (deadline.None? ==> NoneBlamed(rs))
      invariant DeadlineNamed(rs, deadline) && (deadline.Some? ==> blocked.Some? && j > 0)
      invariant j > 0 && out[0] == Exhausted(out[0].id) ==>
        blocked.Some? && Names(u, rs, ByGate(out[0].id), |rs|)
    {
      assert Member(u, |before| + j, out[j]);
      BatchAppend(u, rs, blocked, launches, out[j], deadline, |before|);
      var s := BatchResult(out[j], out[j].id, deadline);
      if j > 0 && out[0] == Exhausted(out[0].id) { NamesGrows(u, rs, s, ByGate(out[0].id), |rs|); }
      DeadlineGrows(rs, s, deadline);
      blocked := BatchBlocker(out[j], out[j].id, deadline, blocked, u.keepGoing);
      if j == 0 { SelfNamed(u, rs, out[0]); }
      rs := rs + [s];
      if out[j].timeoutSeconds == Some(0) && deadline.None? {
        deadline := Some(out[j].id);
        assert rs[|rs| - 1] == out[j];
      }
      j := j + 1;
    }
  }

  lemma SelfNamed<E>(u: Run<E>, rs: seq<Record<E>>, r: Record<E>)
    requires |rs| < |u.selected|
    ensures r == Exhausted(r.id) ==> Names(u, rs + [r], ByGate(r.id), |rs| + 1)
  {
    assert (rs + [r])[|rs|] == r;
  }

  ghost predicate Member<E>(u: Run<E>, i: nat, r: Record<E>)
    requires ValidRun(u) && i < |u.selected|
  {
    var g := u.selected[i];
    r.id == g.id && !Unapproved(g) && Applicable(g, u.here) && g.group != NoGroup && BatchOrigin(u, r)
  }

  lemma {:induction false} LaunchesAdded<E>(u: Run<E>, rs: seq<Record<E>>, launches: seq<Launch>, started: seq<nat>,
                                            step: nat, hi: nat)
    requires Progress(u, rs, None, launches) && step == |rs| && hi <= step + PARALLEL_GATE_LIMIT && hi <= |u.selected|
    requires forall i :: step <= i < hi ==>
      Applicable(u.selected[i], u.here) && !Unapproved(u.selected[i]) && u.selected[i].group != NoGroup
    requires forall k :: 0 <= k < |started| ==>
      step <= started[k] < hi && !Spent(u, if u.batched then step else started[k])
    ensures Progress(u, rs, None, launches + Launched(started, step))
    ensures forall id :: StartedHere(u, started, id) ==> Started(u, launches + Launched(started, step), id)
  {
    hide Accounted, Applicable, Unapproved, Clear, Ran;
    if started == [] {
      assert launches + [] == launches;
    } else {
      var n := |started| - 1;
      LaunchesAdded(u, rs, launches, started[..n], step, hi);
      LaunchAdded(u, rs, None, launches + Launched(started[..n], step), Launch(started[n], step));
      var before, all := launches + Launched(started[..n], step), launches + Launched(started, step);
      assert all == before + [Launch(started[n], step)];
      forall id | StartedHere(u, started, id) ensures Started(u, all, id) {
        var k :| 0 <= k < |started| && started[k] < |u.selected| && u.selected[started[k]].id == id;
        if k < n {
          assert started[..n][k] == started[k];
          StartedGrows(u, before, [Launch(started[n], step)], id);
        }
      }
    }
  }

  function Launched(started: seq<nat>, step: nat): seq<Launch> {
    if started == [] then [] else Launched(started[..|started| - 1], step) + [Launch(started[|started| - 1], step)]
  }

  /** A wave: batches of at most four until one sets a blocker, then the rest is recorded unrun. */
  method RunWave<E>(u: Run<E>, before: seq<Record<E>>, launches: seq<Launch>, group: Group, end: nat)
    returns (rs: seq<Record<E>>, blocked: Option<Blocker>, more: seq<Launch>)
    requires Progress(u, before, None, launches) && |before| < end <= |u.selected|
    requires forall i :: |before| <= i < end ==> InGroup(u.selected[i], group)
    ensures |rs| == end && Progress(u, rs, blocked, more)
  {
    hide Progress, InGroup, Applicable, Unapproved, BatchOrigin, Started, StartedHere, Names;
    rs, blocked, more := before, None, launches;
    ValidOf(u, rs, blocked, more);
    forall i | |before| <= i < end
      ensures Applicable(u.selected[i], u.here) && !Unapproved(u.selected[i]) && u.selected[i].group != NoGroup
    {
      WaveMember(u.selected[i], group, u.here);
    }
    while |rs| < end
      invariant |before| <= |rs| <= end && Progress(u, rs, blocked, more)
      invariant blocked.Some? ==> |rs| == end
      decreases end - |rs|
    {
      var lo := |rs|;
      var hi := if lo + PARALLEL_GATE_LIMIT <= end then lo + PARALLEL_GATE_LIMIT else end;
      var out, started := RunBatch(u, lo, hi);
      LaunchesAdded(u, rs, more, started, lo, hi);
      more := more + Launched(started, lo);
      rs, blocked := RecordBatch(u, rs, more, out);
      if blocked.Some? {
        rs := RecordRest(u, rs, blocked.value, more, end);
      }
    }
  }

  lemma WaveMember(g: Gate, group: Group, here: string)
    requires InGroup(g, group)
    ensures Applicable(g, here) && !Unapproved(g) && g.group != NoGroup
  {}

  /** The unstarted members of a blocked wave. */
  method RecordRest<E>(u: Run<E>, before: seq<Record<E>>, blocker: Blocker, ghost launches: seq<Launch>, end: nat)
    returns (rs: seq<Record<E>>)
    requires Progress(u, before, Some(blocker), launches) && |before| <= end <= |u.selected|
    requires forall i :: |before| <= i < end ==> Applicable(u.selected[i], u.here) && !Unapproved(u.selected[i])
    ensures |rs| == end && Progress(u, rs, Some(blocker), launches)
  {
    hide Progress, Applicable, Unapproved;
    rs := before;
    while |rs| < end
      invariant |before| <= |rs| <= end && Progress(u, rs, Some(blocker), launches)
      decreases end - |rs|
    {
      UnrunAppends(u, rs, blocker, launches);
      rs := rs + [Unrun(u.selected[|rs|].id, blocker)];
    }
  }

  lemma UnrunAppends<E>(u: Run<E>, rs: seq<Record<E>>, blocker: Blocker, launches: seq<Launch>)
    requires Progress(u, rs, Some(blocker), launches) && |rs| < |u.selected|
    requires var g := u.selected[|rs|]; Applicable(g, u.here) && !Unapproved(g)
    ensures Progress(u, rs + [Unrun(u.selected[|rs|].id, blocker)], Some(blocker), launches)
  {
    hide Applicable, Unapproved;
    var r := Unrun<E>(u.selected[|rs|].id, blocker);
    assert (rs + [r])[|rs|] == r;
    NamesGrows(u, rs, r, blocker, |rs|);
    Append(u, rs, Some(blocker), launches, r, Some(blocker));
  }

  // ---- the scheduler ----

  /**
   * run_selected_gates. Whatever the selection, platform, budget, answers and blockers, the
   * results account for every selected gate exactly once and in order, and every start and
   * every refusal to start is justified by the results before it.
   */
  method RunSelectedGates<E>(u: Run<E>) returns (results: seq<Record<E>>, launches: seq<Launch>)
    requires ValidRun(u)
    ensures |results| == |u.selected|
    ensures forall i :: 0 <= i < |results| ==> Accounted(u, results, i)
    ensures forall k :: 0 <= k < |launches| ==> launches[k].step <= |results| && LaunchOk(u, results, launches[k])
    ensures forall i :: 0 <= i < |results| && Ran(u, results, i) ==> Started(u, launches, results[i].id)
    ensures OneBlamed(results)
  {
    hide Progress, Applicable, Unapproved, InGroup;
    results, launches := [], [];
    var blocked := u.preflight;
    Nothing(u);
    while |results| < |u.selected|
      invariant |results| <= |u.selected| && Progress(u, results, blocked, launches)
      decreases |u.selected| - |results|
    {
      var gate := u.selected[|results|];
      if Unapproved(gate) || !Applicable(gate, u.here) || blocked.Some? {
        var r, next := RecordUnstarted(u, results, blocked, launches);
        results, blocked := results + [r], next;
      } else if gate.group != NoGroup {
        GroupedIsMember(gate);
        var end := WaveEnd(u.selected, gate.group, |results|);
        results, blocked, launches := RunWave(u, results, launches, gate.group, end);
      } else {
        var r, next, more := RunSerial(u, results, launches);
        results, blocked, launches := results + [r], next, more;
      }
    }
    Final(u, results, blocked, launches);
  }

  lemma Nothing<E>(u: Run<E>)
    requires ValidRun(u)
    ensures Progress(u, [], u.preflight, [])
  {}

  lemma GroupedIsMember(g: Gate)
    requires !Unapproved(g) && g.group != NoGroup
    ensures InGroup(g, g.group)
  {}

  lemma Final<E>(u: Run<E>, rs: seq<Record<E>>, blocked: Option<Blocker>, launches: seq<Launch>)
    requires Progress(u, rs, blocked, launches)
    ensures |rs| <= |u.selected| && ValidRun(u)
    ensures forall i :: 0 <= i < |rs| ==> Accounted(u, rs, i)
    ensures forall k :: 0 <= k < |launches| ==> launches[k].step <= |rs| && LaunchOk(u, rs, launches[k])
    ensures forall i :: 0 <= i < |rs| && Ran(u, rs, i) ==> Started(u, launches, rs[i].id)
    ensures OneBlamed(rs)
  {}

  /** With distinct ids, a gate that ran carries its own runner's answer. */
  lemma RanCarriesOwnAnswer<E>(u: Run<E>, rs: seq<Record<E>>, i: nat)
    requires ValidRun(u) && i < |rs| == |u.selected| && Accounted(u, rs, i) && Ran(u, rs, i)
    requires forall a, b :: 0 <= a < b < |u.selected| ==> u.selected[a].id != u.selected[b].id
    ensures rs[i] == u.answers[i]
  {}

  // ---- fail-fast, read off the results ----

  /**
   * A result that must stop the run: an interrupt, a spent budget, a refused group, or, unless
   * asked to keep going, a non-pass.
   */
  ghost predicate Stops<E>(u: Run<E>, rs: seq<Record<E>>, i: nat)
    requires i < |rs| && i < |u.selected|
  {
    || rs[i].interrupted.Some? || rs[i].timeoutSeconds == Some(0) || Unapproved(u.selected[i])
    || (!u.keepGoing && !rs[i].status.Pass? && Applicable(u.selected[i], u.here))
  }

  /** No gate is started after a stopping result, except beside it in the same batch of four. */
  lemma NothingStartsAfterStop<E>(u: Run<E>, rs: seq<Record<E>>, l: Launch, i: nat)
    requires l.step <= |rs| && LaunchOk(u, rs, l) && i < |rs| && i < |u.selected| && Stops(u, rs, i)
    ensures l.step <= i && l.position < i + PARALLEL_GATE_LIMIT
  {}

  /** A refused start never precedes a start of a later step: the blocker is never lifted. */
  lemma BlockerIsNeverLifted<E>(u: Run<E>, rs: seq<Record<E>>, l: Launch, i: nat)
    requires l.step <= |rs| && LaunchOk(u, rs, l) && i < |rs| && i < |u.selected|
    requires u.preflight.Some? || rs[i].blockedBy.Some?
    ensures u.preflight.None? && l.step <= i
  {}

  /** Every blocked gate names the preflight, an earlier interrupt, or an earlier gate that stops the run. */
  lemma BlockedNamesEarlier<E>(u: Run<E>, rs: seq<Record<E>>, i: nat)
    requires ValidRun(u) && i < |rs| == |u.selected| && Accounted(u, rs, i) && rs[i].blockedBy.Some?
    requires forall j :: 0 <= j < i ==> Accounted(u, rs, j)
    ensures match rs[i].blockedBy.value
            case Preflight(_) => u.preflight == rs[i].blockedBy
            case Signal(s) => exists j :: 0 <= j < i && rs[j].interrupted == Some(s)
            case ByGate(id) => exists j :: 0 <= j < i && u.selected[j].id == id && Stops(u, rs, j)
                                 && (!rs[j].status.Pass? || rs[j].timeoutSeconds == Some(0))
  {
    var b := rs[i].blockedBy.value;
    assert Names(u, rs, b, i);
    if b.ByGate? {
      var j :| 0 <= j < i && Blames(u, u.selected[j], rs[j], b.id);
      assert Accounted(u, rs, j);
    }
  }

  /**
   * Nothing is held back without a reason: when nothing before it stops the run, an approved
   * gate of this platform has a runner's answer, or its own budget was spent.
   */
  lemma ClearGateRuns<E>(u: Run<E>, rs: seq<Record<E>>, i: nat)
    requires ValidRun(u) && i < |rs| == |u.selected| && Accounted(u, rs, i) && ClearUpTo(u, rs, i)
    requires !Unapproved(u.selected[i]) && Applicable(u.selected[i], u.here)
    ensures rs[i].blockedBy.None?
    ensures OutOfBudget(u, u.selected[i].id) || exists k :: 0 <= k < |u.answers| && rs[i] == u.answers[k]
  {}

  /**
   * What decides about a serial gate of this platform: it is blocked exactly when something before
   * it stops the run; otherwise a spent budget fails it without a start, and only a gate with
   * budget carries its runner's answer.
   */
  lemma BudgetDecides<E>(u: Run<E>, rs: seq<Record<E>>, i: nat)
    requires ValidRun(u) && i < |rs| == |u.selected| && Accounted(u, rs, i)
    requires u.selected[i].group == NoGroup && Applicable(u.selected[i], u.here)
    ensures rs[i].blockedBy.None? <==> ClearUpTo(u, rs, i)
    ensures ClearUpTo(u, rs, i) && Spent(u, i) ==> rs[i] == Exhausted(u.selected[i].id)
    ensures ClearUpTo(u, rs, i) && !Spent(u, i) ==> rs[i] == u.answers[i]
  {
    if ClearUpTo(u, rs, i) { ClearGateRuns(u, rs, i); }
  }

  /** A wave member that is run on its own budget has some; with distinct ids it is not answered for without. */
  lemma WaveBudget<E>(u: Run<E>, rs: seq<Record<E>>, i: nat)
    requires ValidRun(u) && i < |rs| == |u.selected| && Accounted(u, rs, i) && Ran(u, rs, i) && !u.batched
    requires forall a, b :: 0 <= a < b < |u.selected| ==> u.selected[a].id != u.selected[b].id
    ensures !Spent(u, i) && rs[i] == u.answers[i]
  {
    RanCarriesOwnAnswer(u, rs, i);
    var g := u.selected[i];
    if g.group != NoGroup {
      var k :| 0 <= k < |u.answers| && rs[i] == u.answers[k] && !Spent(u, k);
      assert u.answers[k].id == u.selected[k].id;
    }
  }

  /** The group that a gate asks for is the approved one, for an approved gate that runs anywhere. */
  predicate ApprovedGroup(g: Gate) {
    && g.group == Named("static-independent") && g.platforms == Some(["any"])
    && g.id in {"fmt-check", "gates-inventory", "py-lint", "test-architecture", "semgrep", "deny"}
  }

  /** The inventory lists the platforms of the gate, and neither "any" nor this host is among them. */
  predicate OtherPlatforms(g: Gate, here: string) {
    && g.platforms.Some?
    && forall i :: 0 <= i < |g.platforms.value| ==> g.platforms.value[i] != "any" && g.platforms.value[i] != here
  }

  /** Not run, with a blocker and nothing else to tell. */
  predicate Blocked<E>(r: Record<E>) {
    && r.status.NotRun? && r.blockedBy.Some? && r.exitCode.None? && r.signal.None? && r.interrupted.None? && !r.timedOut
    && r.timeoutSeconds.None? && r.statusLine.None? && r.execution.None?
  }

  /** Failed before its start, for want of time. */
  predicate OutOfTime<E>(r: Record<E>) {
    && r.status.Fail? && r.timedOut && r.timeoutSeconds == Some(0) && r.exitCode.None? && r.signal.None?
    && r.interrupted.None? && r.blockedBy.None? && r.statusLine.None? && r.execution.None?
  }

  /**
   * The policy, spelled out: a gate that asks for a group without approval fails; any other gate
   * for other platforms is skipped; every remaining gate is blocked, out of budget, or answered for.
   */
  lemma PolicyDecides<E>(u: Run<E>, rs: seq<Record<E>>, i: nat)
    requires ValidRun(u) && i < |rs| == |u.selected| && Accounted(u, rs, i)
    ensures var g, r := u.selected[i], rs[i];
            if g.group != NoGroup && !ApprovedGroup(g) then r == Bare(g.id, Fail)
            else if OtherPlatforms(g, u.here) then r == Bare(g.id, SkippedPlatform)
            else Blocked(r) || OutOfTime(r) || exists k :: 0 <= k < |u.answers| && r == u.answers[k]
  {
    var g := u.selected[i];
    assert Unapproved(g) <==> g.group != NoGroup && !ApprovedGroup(g);
    assert Applicable(g, u.here) <==> !OtherPlatforms(g, u.here);
  }
}
