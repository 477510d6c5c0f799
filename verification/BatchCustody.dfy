/** tools/process_supervisor.py: custody of every child group in every run of run_process_batch. */
module BatchCustody {
  import opened ProcessBatch

  /** Every group signal so far was issued while its leader was held. */
  ghost predicate AllHeld(sent: seq<Sent>) {
    forall k :: 0 <= k < |sent| ==> sent[k].leaderHeld
  }

  /** A reaped leader was started and has a retired group. */
  ghost predicate Ordered(cs: seq<Child>) {
    forall i :: 0 <= i < |cs| && cs[i].reaped ==> cs[i].spawned && cs[i].retired
  }

  /** Nothing is retired; what was started lies before `n`. */
  ghost predicate Launched(cs: seq<Child>, n: nat) {
    && (forall i :: 0 <= i < |cs| ==> !cs[i].retired)
    && (forall i :: n <= i < |cs| ==> !cs[i].spawned)
  }

  /** The pending children are exactly the started ones that are not retired. */
  ghost predicate Owned(cs: seq<Child>, pending: set<nat>) {
    && (forall i :: i in pending ==> i < |cs| && cs[i].spawned && !cs[i].retired)
    && (forall i :: 0 <= i < |cs| && cs[i].spawned && !cs[i].reaped ==> i in pending)
  }

  ghost predicate AllRetired(cs: seq<Child>, n: nat) {
    forall i :: 0 <= i < |cs| && i < n ==> cs[i].retired
  }

  ghost predicate AllReaped(cs: seq<Child>) {
    forall i :: 0 <= i < |cs| && cs[i].spawned ==> cs[i].reaped
  }

  /** The visited child is pending, and between its retirement and its removal it alone is retired. */
  ghost predicate Visiting(s: State, i: nat, p: PollPc, todo: set<nat>) {
    && i < |s.children| && i in s.pending && todo <= s.pending - {i} && s.children[i].spawned
    && (s.children[i].retired <==> p.PReap? || p.PRemove?) && (s.children[i].reaped <==> p.PRemove?)
    && Owned(s.children[i := s.children[i].(retired := false, reaped := false)], s.pending)
  }

  /** What the position of the main program says about the children. */
  ghost predicate Placed(s: State) {
    match s.pc
    case Launch(i, p) =>
      && Launched(s.children, if p.LTop? || p.LPopen? then i else i + 1)
      && (!(p.LTop? || p.LPopen?) ==> i < |s.children| && s.children[i].spawned)
    case Turn => Owned(s.children, s.pending)
    case Pick(todo) => Owned(s.children, s.pending) && todo <= s.pending
    case Poll(i, p, todo) => Visiting(s, i, p, todo)
    case Cleanup(i, p) => AllRetired(s.children, i) && (p.CTermIssue? || p.CKillIssue? ==> MaySignal(s, i))
    case Final(failed, _) => if failed then AllRetired(s.children, |s.children|) else AllReaped(s.children)
    case Returned => AllReaped(s.children)
    case Raised => true
  }

  predicate Guarded(f: Frame, s: State) {
    f.HKillIssue? || f.HIssue? || f.HMark? || f.HGuard? ==> MaySignal(s, f.child)
  }

  /** Handlers past their guard are only active while that child's group may be signalled. */
  ghost predicate HandlersGuarded(s: State) {
    forall k :: 0 <= k < |s.frames| ==> Guarded(s.frames[k], s)
  }

  ghost predicate Custody(s: State) {
    AllHeld(s.sent) && Ordered(s.children) && Placed(s)
  }

  lemma LaunchKeeps(s: State, i: nat, p: LaunchPc)
    requires Custody(s) && s.pc == Launch(i, p)
    ensures Custody(LaunchStep(s, i, p))
  {}

  lemma PickKeeps(s: State, ch: Choice)
    requires Custody(s) && (s.pc.Turn? || s.pc.Pick?)
    ensures s.pc.Turn? ==> Custody(TurnStep(s))
    ensures s.pc.Pick? ==> Custody(PickStep(s, s.pc.todo, ch))
  {}

  lemma PollKeeps(s: State, i: nat, p: PollPc, todo: set<nat>, ch: Choice)
    requires Custody(s) && s.pc == Poll(i, p, todo)
    ensures Custody(PollStep(s, i, p, todo, ch))
  {
    hide PollStep;
    if p.PMark? || p.PReap? || p.PRemove? { VisitRetires(s, i, p, todo, ch); } else { VisitWatches(s, i, p, todo, ch); }
  }

  /** A visit that marks, reaps and removes its child. */
  lemma VisitRetires(s: State, i: nat, p: PollPc, todo: set<nat>, ch: Choice)
    requires Custody(s) && s.pc == Poll(i, p, todo) && (p.PMark? || p.PReap? || p.PRemove?)
    ensures Custody(PollStep(s, i, p, todo, ch))
  {
    var live := s.children[i := s.children[i].(retired := false, reaped := false)];
    var t := PollStep(s, i, p, todo, ch);
    if p.PRemove? {
      assert forall k :: 0 <= k < |live| && k != i ==> live[k] == s.children[k];
    } else {
      assert t.children[i := t.children[i].(retired := false, reaped := false)] == live;
    }
  }

  /** A visit up to that point changes no child, and signals only the visited one. */
  lemma VisitWatches(s: State, i: nat, p: PollPc, todo: set<nat>, ch: Choice)
    requires Custody(s) && s.pc == Poll(i, p, todo) && !(p.PMark? || p.PReap? || p.PRemove?)
    ensures Custody(PollStep(s, i, p, todo, ch))
  {
    assert s.children[i := s.children[i].(retired := false, reaped := false)] == s.children;
  }

  lemma CleanKeeps(s: State, i: nat, p: CleanPc)
    requires Custody(s) && s.pc == Cleanup(i, p)
    ensures Custody(CleanStep(s, i, p))
  {}

  lemma FinalKeeps(s: State, failed: bool, i: nat, ch: Choice)
    requires Custody(s) && s.pc == Final(failed, i)
    ensures Custody(FinalStep(s, failed, i, ch))
  {}

  /** An exception outside the cleanup loop leaves every child to that loop. */
  lemma RaiseKeeps(s: State)
    requires Custody(s) && !s.pc.Cleanup?
    ensures Custody(Raise(s)) && Raise(s).frames == []
  {}

  lemma MainKeeps(s: State, ch: Choice)
    requires Custody(s)
    ensures Custody(MainStep(s, ch, false))
  {
    hide Custody, LaunchStep, TurnStep, PickStep, PollStep, CleanStep, FinalStep, Raise;
    if !s.pc.Cleanup? { RaiseKeeps(s); }
    match s.pc
    case Launch(i, p) => LaunchKeeps(s, i, p);
    case Turn => PickKeeps(s, ch);
    case Pick(_) => PickKeeps(s, ch);
    case Poll(i, p, todo) => PollKeeps(s, i, p, todo, ch);
    case Cleanup(i, p) => CleanKeeps(s, i, p);
    case Final(failed, i) => FinalKeeps(s, failed, i, ch);
    case _ =>
  }

  /** The main program is suspended while a handler is active, and starts none. */
  lemma MainAndHandlers(s: State, ch: Choice, may: bool)
    ensures s.frames != [] ==> MainStep(s, ch, may) == s
    ensures s.frames == [] ==> MainStep(s, ch, may).frames == []
  {}

  // ---- the handler ----

  /** A handler's statement changes neither the position nor what is started, retired or reaped. */
  ghost predicate SameCustody(s: State, t: State) {
    && t.pc == s.pc && t.pending == s.pending && |t.children| == |s.children|
    && forall i :: 0 <= i < |s.children| ==>
         t.children[i].spawned == s.children[i].spawned && t.children[i].retired == s.children[i].retired
         && t.children[i].reaped == s.children[i].reaped
  }

  lemma SameCustodyKeeps(s: State, t: State)
    requires Ordered(s.children) && Placed(s) && SameCustody(s, t)
    ensures Ordered(t.children) && Placed(t)
  {}

  lemma CancelIsTame(s: State, top: Frame, below: seq<Frame>)
    requires AllHeld(s.sent) && Ordered(s.children) && Guarded(top, s)
    ensures SameCustody(s, CancelStep(s, top, below)) && AllHeld(CancelStep(s, top, below).sent)
  {}

  /** The innermost handler moves on or returns; it passes a guard only when it holds. */
  lemma CancelMoves(s: State, top: Frame, below: seq<Frame>)
    requires Guarded(top, s)
    ensures var t := CancelStep(s, top, below);
            t.frames == below || t == s || exists f :: t.frames == below + [f] && Guarded(f, t)
  {}

  lemma CancelKeepsGuards(s: State, top: Frame, below: seq<Frame>)
    requires HandlersGuarded(s) && s.frames == below + [top] && Custody(s)
    ensures HandlersGuarded(CancelStep(s, top, below)) && Custody(CancelStep(s, top, below))
  {
    hide Ordered, Placed, AllHeld, CancelStep;
    var t := CancelStep(s, top, below);
    assert s.frames[|below|] == top;
    CancelIsTame(s, top, below);
    SameCustodyKeeps(s, t);
    CancelMoves(s, top, below);
    assert forall k :: 0 <= k < |below| ==> s.frames[k] == below[k];
  }

  lemma NextKeeps(s: State, e: Event)
    requires Custody(s) && HandlersGuarded(s)
    ensures Custody(Next(false, s, e)) && HandlersGuarded(Next(false, s, e))
  {
    hide MainStep, CancelStep, Raise, Guarded, Ordered, AllHeld;
    match e
    case Step(ch) =>
      MainKeeps(s, ch);
      MainAndHandlers(s, ch, false);
    case Interrupt =>
      var t := s.(frames := s.frames + [HBegin]);
      GuardedBegin(s, t);
      SameCustodyKeeps(s, t);
    case HandlerStep(raises) =>
      if !s.pc.Cleanup? { RaiseKeeps(s); }
      if s.frames != [] {
        var n := |s.frames| - 1;
        assert s.frames == s.frames[..n] + [s.frames[n]];
        CancelKeepsGuards(s, s.frames[n], s.frames[..n]);
      }
  }

  lemma GuardedBegin(s: State, t: State)
    requires HandlersGuarded(s) && t == s.(frames := s.frames + [HBegin])
    ensures HandlersGuarded(t)
  {}

  /** With a cleanup loop that cannot fail, every run keeps custody. */
  lemma {:induction false} RunKeeps(n: nat, es: seq<Event>)
    ensures Custody(Run(false, Init(n), es)) && HandlersGuarded(Run(false, Init(n), es))
  {
    hide Next, Ordered, AllHeld;
    if es == [] {
      InitKeeps(n);
    } else {
      RunKeeps(n, es[..|es| - 1]);
      NextKeeps(Run(false, Init(n), es[..|es| - 1]), es[|es| - 1]);
    }
  }

  lemma InitKeeps(n: nat)
    ensures Custody(Init(n)) && HandlersGuarded(Init(n))
  {}

  // ---- runs in which nothing fails, or the cleanup loop does not ----

  /** The exception path was taken; from here a run can only raise. */
  predicate Failed(pc: Pc) { pc.Cleanup? || (pc.Final? && pc.failed) || pc.Raised? }

  lemma FailedForGood(may: bool, s: State, e: Event)
    requires Failed(s.pc)
    ensures Failed(Next(may, s, e).pc)
  {}

  lemma SwitchIsIdle(may: bool, s: State, e: Event)
    requires !s.pc.Cleanup?
    ensures Next(may, s, e) == Next(false, s, e)
  {
    hide LaunchStep, PollStep, CancelStep;
  }

  lemma {:induction false} RunKeepsOrFails(may: bool, n: nat, es: seq<Event>)
    ensures var s := Run(may, Init(n), es); Failed(s.pc) || (Custody(s) && HandlersGuarded(s))
  {
    hide Next, Custody, HandlersGuarded, Failed;
    if es == [] {
      InitKeeps(n);
    } else {
      var s, e := Run(may, Init(n), es[..|es| - 1]), es[|es| - 1];
      RunKeepsOrFails(may, n, es[..|es| - 1]);
      if Failed(s.pc) {
        FailedForGood(may, s, e);
      } else {
        CleanupHasFailed(s);
        SwitchIsIdle(may, s, e);
        NextKeeps(s, e);
      }
    }
  }

  lemma CleanupHasFailed(s: State)
    ensures s.pc.Cleanup? ==> Failed(s.pc)
  {}

  /** A batch that returns has reaped every child that it started, whatever the cleanup loop could do. */
  lemma ReturnReapsAll(may: bool, n: nat, es: seq<Event>)
    ensures var s := Run(may, Init(n), es); s.pc.Returned? ==> AllReaped(s.children)
  {
    RunKeepsOrFails(may, n, es);
  }

  predicate Raises(e: Event) {
    match e
    case Step(ch) => ch.raises
    case HandlerStep(raises) => raises
    case Interrupt => false
  }

  /** No exception arises inside the cleanup loop of this run. */
  ghost predicate CleanupCompletes(n: nat, es: seq<Event>) {
    forall k :: 0 <= k < |es| && Raises(es[k]) ==> !Run(true, Init(n), es[..k]).pc.Cleanup?
  }

  lemma OnlyRaisesDiffer(s: State, e: Event)
    requires s.pc.Cleanup? ==> !Raises(e)
    ensures Next(true, s, e) == Next(false, s, e)
  {
    hide LaunchStep, PollStep, CancelStep, CleanStep;
  }

  lemma {:induction false} SameRun(n: nat, es: seq<Event>)
    requires CleanupCompletes(n, es)
    ensures Run(true, Init(n), es) == Run(false, Init(n), es)
  {
    hide Next;
    if es != [] {
      var m := |es| - 1;
      var before := es[..m];
      forall k | 0 <= k < |before| && Raises(before[k]) ensures !Run(true, Init(n), before[..k]).pc.Cleanup? {
        assert before[..k] == es[..k] && before[k] == es[k];
      }
      SameRun(n, before);
      OnlyRaisesDiffer(Run(true, Init(n), before), es[m]);
    }
  }

  /** Custody in every single run whose cleanup loop completes, though it might have failed. */
  lemma SafeIfCleanupCompletes(n: nat, es: seq<Event>)
    requires CleanupCompletes(n, es)
    ensures AllHeld(Run(true, Init(n), es).sent)
  {
    SameRun(n, es);
    RunKeeps(n, es);
  }

  // ---- a cleanup loop that fails ----

  ghost predicate Reaches(n: nat, s: State) {
    exists es :: Run(true, Init(n), es) == s
  }

  lemma OneMore(n: nat, s: State, e: Event)
    requires Reaches(n, s)
    ensures Reaches(n, Next(true, s, e))
  {
    hide Next;
    var es :| Run(true, Init(n), es) == s;
    var more := es + [e];
    assert more[..|more| - 1] == es;
    assert Run(true, Init(n), more) == Next(true, s, e);
  }

  const PLAIN := Choice(false, 0, false, false, false, false, false, true)

  /** The first child is started, and then two exceptions lead into the finally clause, which reaps its leader. */
  lemma ReachesReaped(n: nat)
    requires n > 0
    ensures Reaches(n, Init(n).(children := Init(n).children[0 := Child(true, false, true, false)],
                                pc := Final(true, 1)))
  {
    var s0 := Init(n);
    assert Run(true, s0, []) == s0;
    assert Reaches(n, s0);
    hide Reaches;
    OneMore(n, s0, Step(PLAIN));
    var s1 := s0.(pc := Launch(0, LPopen));
    assert MainStep(s0, PLAIN, true) == s1;
    OneMore(n, s1, Step(PLAIN));
    var s2 := s0.(children := s0.children[0 := Child(true, false, false, false)], pc := Launch(0, LSubmit));
    assert MainStep(s1, PLAIN, true) == s2;
    OneMore(n, s2, Step(PLAIN.(raises := true)));
    var s3 := s2.(pc := Cleanup(0, CTermGuard));
    assert MainStep(s2, PLAIN.(raises := true), true) == s3;
    OneMore(n, s3, Step(PLAIN.(raises := true)));
    var s4 := s2.(pc := Final(true, 0));
    assert MainStep(s3, PLAIN.(raises := true), true) == s4;
    OneMore(n, s4, Step(PLAIN));
    var s5 := s4.(children := s4.children[0 := Child(true, false, true, false)], pc := Final(true, 1));
    assert MainStep(s4, PLAIN, true) == s5;
    assert s5.children == s0.children[0 := Child(true, false, true, false)];
  }

  /** An interrupt that arrives then passes the guard of the handler, since the group was never marked as retired. */
  lemma SignalsReaped(n: nat, s0: State)
    requires n > 0 && Reaches(n, s0) && !Over(s0.pc) && !s0.signalled && s0.frames == []
    requires |s0.children| == n && s0.children[0] == Child(true, false, true, false)
    ensures exists s :: Reaches(n, s) && !AllHeld(s.sent)
  {
    hide Reaches;
    OneMore(n, s0, Interrupt);
    var s1 := s0.(frames := [HBegin]);
    assert Next(true, s0, Interrupt) == s1;
    OneMore(n, s1, HandlerStep(false));
    var s1' := s0.(frames := [HRecord]);
    assert HandlerMove(s1, false, true) == s1';
    OneMore(n, s1', HandlerStep(false));
    var s2 := s1.(signalled := true, frames := [HTerm(0)]);
    assert HandlerMove(s1', false, true) == s2;
    OneMore(n, s2, HandlerStep(false));
    var s3 := s2.(frames := [HMark(0)]);
    assert HandlerMove(s2, false, true) == s3;
    OneMore(n, s3, HandlerStep(false));
    var s4 := s3.(frames := [HGuard(0)], children := s3.children[0 := Child(true, false, true, true)]);
    assert HandlerMove(s3, false, true) == s4;
    OneMore(n, s4, HandlerStep(false));
    var s5 := s4.(frames := [HIssue(0)]);
    assert HandlerMove(s4, false, true) == s5;
    OneMore(n, s5, HandlerStep(false));
    var s6 := HandlerMove(s5, false, true);
    assert s6.sent == s0.sent + [Sent(0, TERM, false)];
    assert !s6.sent[|s0.sent|].leaderHeld;
    assert Reaches(n, s6) && !AllHeld(s6.sent);
  }

  /** No group signal is issued after its leader was reaped, in any run. */
  ghost predicate CustodySafe(n: nat, cleanupMayRaise: bool) {
    forall es :: AllHeld(Run(cleanupMayRaise, Init(n), es).sent)
  }

  /** A batch is safe over all interleavings exactly when the cleanup loop of the exception path cannot itself fail. */
  lemma BatchCustodySafety(n: nat, cleanupMayRaise: bool)
    ensures CustodySafe(n, cleanupMayRaise) <==> n == 0 || !cleanupMayRaise
  {
    hide Run;
    if cleanupMayRaise && n > 0 {
      ReachesReaped(n);
      SignalsReaped(n, Init(n).(children := Init(n).children[0 := Child(true, false, true, false)],
                                pc := Final(true, 1)));
    } else if n == 0 {
      forall es ensures AllHeld(Run(cleanupMayRaise, Init(n), es).sent) { EmptyBatch(cleanupMayRaise, es); }
    } else {
      forall es ensures AllHeld(Run(cleanupMayRaise, Init(n), es).sent) { RunKeeps(n, es); }
    }
  }

  lemma {:induction false} EmptyBatch(may: bool, es: seq<Event>)
    ensures Run(may, Init(0), es).children == [] && Run(may, Init(0), es).sent == []
  {
    hide Next;
    if es != [] {
      EmptyBatch(may, es[..|es| - 1]);
      EmptyStep(may, Run(may, Init(0), es[..|es| - 1]), es[|es| - 1]);
    }
  }

  lemma EmptyStep(may: bool, s: State, e: Event)
    requires s.children == [] && s.sent == []
    ensures Next(may, s, e).children == [] && Next(may, s, e).sent == []
  {}
}
