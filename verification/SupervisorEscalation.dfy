/**
 * tools/process_supervisor.py: what the escalation of run_process does to the group. It signals
 * when it has to, never without a reason, and never before its time.
 */
module SupervisorEscalation {
  import opened Wrappers
  import opened Capture
  import opened ProcessSupervisor
  import Custody = SupervisorCustody
  import Settlement = SupervisorSettlement

  // ---- who has been signalled, and why ----

  /** The group has been sent this signal. */
  ghost predicate Sent(g: Group, signum: Signum) {
    exists i :: 0 <= i < |g.signals| && g.signals[i].signum == signum
  }

  /** The supervision loop proper. */
  predicate Inside(pc: Pc) { pc.Loop? || pc.Killing? || pc.Arming? }

  /** A frame that still has the group to terminate, or to kill. */
  predicate TermFrame(f: Frame) { f.TermTest? || f.TermIssue? }

  predicate KillFrame(f: Frame) { f.KillTest? || f.KillIssue? }

  ghost predicate TermPending(frames: seq<Frame>) {
    exists i :: 0 <= i < |frames| && TermFrame(frames[i])
  }

  ghost predicate KillPending(frames: seq<Frame>) {
    exists i :: 0 <= i < |frames| && KillFrame(frames[i])
  }

  /** The main program is in an arming branch and has not signalled yet. */
  predicate AboutToTerm(pc: Pc) { pc.Arming? && !pc.arm.AArm? }

  /** The main program is past the kill of a kill branch. */
  predicate AfterKill(pc: Pc) { pc.Killing? && !pc.kill.KCheck? && !pc.kill.KSend? }

  /** Every escalation has signalled the group. */
  ghost predicate Signalled(pc: Pc, frames: seq<Frame>, g: Group, a: Alarm) {
    && (Inside(pc) && (a.hardStop || AfterKill(pc)) ==> Sent(g, KILL))
    && (Inside(pc) && (a.timedOut || a.aborted) && !AboutToTerm(pc) ==> Sent(g, TERM))
    && (Inside(pc) && a.interrupted.Some? && !TermPending(frames) ==> Sent(g, TERM))
    && (Inside(pc) || pc.Start? ==> (a.past.again && !KillPending(frames) ==> Sent(g, KILL)))
    && (pc == Start(EarlyArm) ==> Sent(g, TERM))
    && (pc == Failing(XKillCheck) || pc == Failing(XKillSend) ==> Sent(g, TERM))
    && (pc == Failing(XMark) || pc == Failing(XReap) ==> Sent(g, TERM) && Sent(g, KILL))
  }

  /** The main program has escalated, or a signal has been recorded. */
  predicate Escalated(a: Alarm) { a.timedOut || a.aborted || a.interrupted.Some? }

  /** Nothing is signalled without a reason. */
  ghost predicate Justified(pc: Pc, frames: seq<Frame>, g: Group, a: Alarm) {
    Inside(pc) || pc.Start? ==>
      && (g.signals != [] ==> Escalated(a))
      && (Sent(g, KILL) ==> a.hardStop || AfterKill(pc) || a.past.again)
      && (a.past.again ==> MaySignal(g) && a.interrupted.Some?)
      && (TermPending(frames) ==> a.interrupted.Some?)
      && (KillPending(frames) ==> a.interrupted.Some? && (MaySignal(g) ==> a.past.again))
      && (pc.Arming? && !pc.arm.AFlag? ==> a.timedOut || a.aborted)
      && (pc.Killing? || a.hardStop ==> Escalated(a))
      && (pc == Killing(KDeadline) ==> a.hardStop)
      && (pc.Start? && (pc.start.EarlyCheck? || pc.start.EarlySend? || pc.start.EarlyArm?) ==> a.interrupted.Some?)
      && (pc.Start? ==> !a.timedOut && !a.aborted && !a.hardStop)
  }

  ghost predicate Told(s: State) {
    Signalled(s.pc, s.frames, s.group, s.alarm) && Justified(s.pc, s.frames, s.group, s.alarm)
  }

  lemma SentGrows(g: Group, signum: Signum, other: Signum)
    ensures Sent(Issue(g, signum), other) <==> Sent(g, other) || other == signum
    ensures Issue(g, signum).signals != []
  {
    var all := Issue(g, signum).signals;
    assert all[|g.signals|].signum == signum;
    assert forall i :: 0 <= i < |g.signals| ==> all[i] == g.signals[i];
    if Sent(g, other) {
      var i :| 0 <= i < |g.signals| && g.signals[i].signum == other;
      assert all[i].signum == other;
    }
  }

  /** What has been sent depends on the record of signals alone. */
  lemma SentStays(g: Group, h: Group, signum: Signum)
    requires h.signals == g.signals
    ensures Sent(h, signum) <==> Sent(g, signum)
  {}

  lemma Grown(g: Group)
    ensures Sent(Issue(g, TERM), TERM) && (Sent(Issue(g, TERM), KILL) <==> Sent(g, KILL))
    ensures Sent(Issue(g, KILL), KILL) && (Sent(Issue(g, KILL), TERM) <==> Sent(g, TERM))
    ensures Issue(g, TERM).signals != [] && Issue(g, KILL).signals != []
    ensures MaySignal(Issue(g, TERM)) == MaySignal(Issue(g, KILL)) == MaySignal(g)
  {
    SentGrows(g, TERM, TERM);
    SentGrows(g, TERM, KILL);
    SentGrows(g, KILL, KILL);
    SentGrows(g, KILL, TERM);
  }

  lemma NonePending()
    ensures !TermPending([]) && !KillPending([])
  {}

  lemma StartTells(c: Config, s: State, p: StartPc)
    requires Told(s) && s.pc == Start(p) && s.frames == [] && Custody.Placed(s.pc, s.group)
    ensures Told(StartStep(c, s, p))
  {
    hide Sent, TermPending, KillPending, Issue;
    NonePending();
    Grown(s.group);
    SentStays(s.group, s.group.(spawned := true), KILL);
  }

  lemma LoopTells(c: Config, s: State, l: LoopPc, ch: Choice)
    requires Told(s) && s.pc == Loop(l) && s.frames == [] && Custody.Placed(s.pc, s.group)
    ensures Told(LoopStep(c, s, l, ch))
  {
    hide Sent, TermPending, KillPending, Issue, WaitForOutput, IsOverdue;
    NonePending();
  }

  lemma KillTells(c: Config, s: State, k: KillPc)
    requires Told(s) && s.pc == Killing(k) && s.frames == [] && Custody.Placed(s.pc, s.group)
    ensures Told(KillStep(c, s, k))
  {
    hide Sent, TermPending, KillPending, Issue;
    NonePending();
    Grown(s.group);
  }

  lemma ArmTells(c: Config, s: State, cause: Arm, p: ArmPc)
    requires Told(s) && s.pc == Arming(cause, p) && s.frames == [] && Custody.Placed(s.pc, s.group)
    ensures Told(ArmStep(c, s, cause, p))
  {
    hide Sent, TermPending, KillPending, Issue, Noted;
    NonePending();
    Grown(s.group);
  }

  lemma ExitTells(s: State, ch: Choice)
    requires Told(s) && Custody.Placed(s.pc, s.group)
    ensures Told(Raise(s))
    ensures s.pc.Settling? ==> Told(SettleStep(s, s.pc.settle, ch))
    ensures s.pc.Failing? ==> Told(FailStep(s, s.pc.fail, ch))
  {
    hide Sent, TermPending, KillPending, Issue;
    NonePending();
    Grown(s.group);
    SentStays(s.group, s.group.(retired := true), KILL);
    SentStays(s.group, s.group.(retired := true), TERM);
  }

  lemma MainTells(c: Config, s: State, ch: Choice)
    requires Told(s) && Custody.Placed(s.pc, s.group)
    ensures Told(MainStep(c, s, ch))
  {
    hide Told, StartStep, LoopStep, KillStep, ArmStep, SettleStep, FailStep, Raise;
    ExitTells(s, ch);
    if s.frames == [] && !ch.raises {
      match s.pc
      case Start(p) => StartTells(c, s, p);
      case Loop(l) => LoopTells(c, s, l, ch);
      case Killing(k) => KillTells(c, s, k);
      case Arming(cause, p) => ArmTells(c, s, cause, p);
      case _ =>
    }
  }

  lemma PendingTop(below: seq<Frame>, top: Frame)
    ensures TermPending(below + [top]) <==> TermPending(below) || TermFrame(top)
    ensures KillPending(below + [top]) <==> KillPending(below) || KillFrame(top)
  {
    var all := below + [top];
    assert all[|below|] == top;
    assert forall i :: 0 <= i < |below| ==> all[i] == below[i];
    if TermPending(below) {
      var i :| 0 <= i < |below| && TermFrame(below[i]);
      assert TermFrame(all[i]);
    }
    if KillPending(below) {
      var i :| 0 <= i < |below| && KillFrame(below[i]);
      assert KillFrame(all[i]);
    }
  }

  lemma CancelTells(c: Config, s: State, top: Frame, below: seq<Frame>)
    requires Told(s) && Custody.Placed(s.pc, s.group) && s.frames == below + [top]
    requires Custody.Issuing(top) ==> MaySignal(s.group)
    ensures Told(CancelStep(c, s, top, below))
  {
    hide Sent, TermPending, KillPending, Issue, Noted;
    var t := CancelStep(c, s, top, below);
    Grown(s.group);
    PendingTop(below, top);
    if t.frames != below {
      var f := t.frames[|below|];
      assert t.frames == below + [f];
      PendingTop(below, f);
    }
  }

  lemma NextTells(c: Config, s: State, e: Event)
    requires Told(s) && Custody.Custody(s)
    ensures Told(Next(c, s, e))
  {
    hide MainStep, CancelStep, TermPending, KillPending, Signalled, Justified, Custody.AllHeld, Raise;
    match e
    case Step(ch) => MainTells(c, s, ch);
    case Interrupt(signum) =>
      PendingTop(s.frames, Begin(signum));
      SameFrames(s, s.frames + [Begin(signum)]);
    case HandlerStep(raises) =>
      ExitTells(s, Choice(false, false, [], false, false, false, false, false));
      if s.frames != [] {
        var n := |s.frames| - 1;
        assert s.frames == s.frames[..n] + [s.frames[n]];
        CancelTells(c, s, s.frames[n], s.frames[..n]);
      }
    case Tick(dt) =>
  }

  lemma SameFrames(s: State, frames: seq<Frame>)
    requires Told(s) && (TermPending(frames) <==> TermPending(s.frames))
        && (KillPending(frames) <==> KillPending(s.frames))
    ensures Told(s.(frames := frames))
  {
    hide Sent, TermPending, KillPending;
  }

  lemma {:induction false} RunTells(c: Config, clock: real, es: seq<Event>)
    ensures Told(Run(c, Init(clock), es))
  {
    hide Next, Told, Custody.Custody;
    if es == [] {
      InitTells(clock);
    } else {
      RunTells(c, clock, es[..|es| - 1]);
      Custody.CustodySafety(c, clock, es[..|es| - 1]);
      NextTells(c, Run(c, Init(clock), es[..|es| - 1]), es[|es| - 1]);
    }
  }

  lemma InitTells(clock: real)
    ensures Told(Init(clock))
  {}

  /**
   * The group is signalled exactly when the run has escalated. In every run, inside the loop:
   * a hard stop means that KILL was sent; a timeout, an abort or a recorded interrupt means that
   * TERM was sent, once the statement that sends it is past; a further interrupt means that KILL
   * was sent. Conversely nothing at all is sent before the run has escalated, and no KILL without
   * a hard stop or a further interrupt. All these signals reach a held leader.
   */
  lemma EscalationSignals(c: Config, clock: real, es: seq<Event>)
    ensures var s := Run(c, Init(clock), es); var g, a := s.group, s.alarm;
            Inside(s.pc) ==>
              && (a.hardStop ==> Sent(g, KILL))
              && ((a.timedOut || a.aborted) && !AboutToTerm(s.pc) ==> Sent(g, TERM))
              && (s.frames == [] && a.interrupted.Some? ==> Sent(g, TERM))
              && (s.frames == [] && a.past.again ==> Sent(g, KILL))
              && (g.signals != [] ==> a.timedOut || a.aborted || a.interrupted.Some?)
              && (Sent(g, KILL) ==> a.hardStop || AfterKill(s.pc) || a.past.again)
              && Custody.AllHeld(g)
  {
    hide Run, Sent, TermPending, KillPending;
    RunTells(c, clock, es);
    Custody.CustodySafety(c, clock, es);
    NonePending();
  }

  /** The exception path terminates and kills the group before it marks it as retired. */
  lemma CleanupSignals(c: Config, clock: real, es: seq<Event>)
    ensures var s := Run(c, Init(clock), es);
            s.pc == Failing(XMark) || s.pc == Failing(XReap) ==> Sent(s.group, TERM) && Sent(s.group, KILL)
  {
    RunTells(c, clock, es);
  }

  // ---- never before its time ----

  /** The grace deadline, the kill and the hard deadline keep their distances from the first arm. */
  ghost predicate Unhurried(c: Config, pc: Pc, t: Time, a: Alarm) {
    var first := a.past.since;
    && (first.Some? ==> first.value <= t.now) && t.now <= t.clock
    && (a.grace.Some? ==> first.Some? && first.value + c.grace <= a.grace.value)
    && (Inside(pc) && (a.hardStop || pc.Killing?) ==> first.Some? && first.value + c.grace <= t.now)
    && (a.hardDeadline.Some? ==> first.Some? && first.value + c.grace + c.reap <= a.hardDeadline.value)
    && (a.past.gaveUp ==> first.Some? && first.value + c.grace + c.reap <= t.clock)
    && (pc.Start? ==> !a.hardStop && !a.timedOut && a.hardDeadline.None?)
    && (InLoop(pc) ==> a.deadline == a.past.started + c.timeout)
    && (Inside(pc) && (a.timedOut || (pc.Arming? && !pc.cause.OnAbort?)) ==> a.deadline <= t.now)
  }

  /** An abort was asked for or the output overflowed, and either is acted upon. */
  ghost predicate Caused(pc: Pc, a: Alarm, o: Output) {
    && (Inside(pc) && (a.aborted || (pc.Arming? && pc.cause.OnAbort?)) ==> a.past.asked || o.captured.overflow)
    && (Inside(pc) && a.past.asked ==> a.aborted || pc == Arming(OnAbort, AFlag))
    && (pc == Loop(Wait) && a.interrupted.None? && o.captured.overflow ==> a.timedOut || a.aborted)
    && (pc.Start? ==> !a.aborted && !a.past.asked && !o.captured.overflow)
    && (pc.Killing? && a.interrupted.None? ==> a.timedOut || a.aborted)
    && (pc.Arming? && !pc.arm.AFlag? ==> a.timedOut || a.aborted)
  }

  /** The loop is left for a result only with the leader gone and the pipes closed, and they close only for a reason. */
  ghost predicate Drained(pc: Pc, a: Alarm, o: Output) {
    && (pc.Returned? && a.past.orphaned ==> a.aborted)
    && (Inside(pc) && !o.pipesOpen ==> o.eof || a.hardStop)
    && (pc.Settling? || pc.Returned? ==> o.leaderDone && !o.pipesOpen)
    && (pc == Loop(Drain) && o.leaderDone ==> o.pipesOpen)
    && (pc.Start? ==> o.pipesOpen)
  }

  ghost predicate InOrder(c: Config, s: State) {
    && Unhurried(c, s.pc, s.time, s.alarm) && Caused(s.pc, s.alarm, s.output) && Drained(s.pc, s.alarm, s.output)
    && (s.alarm.past.gaveUp ==> s.pc.Failing? || s.pc.Raised?)
  }

  lemma {:induction false} OverflowStays(limit: Option<nat>, k: Captured, chunks: seq<Chunk>)
    ensures k.overflow ==> ReadChunks(limit, k, chunks).overflow
  {
    if chunks != [] { OverflowStays(limit, k, chunks[..|chunks| - 1]); }
  }

  lemma StartInOrder(c: Config, s: State, p: StartPc)
    requires ValidConfig(c) && InOrder(c, s) && s.pc == Start(p) && s.frames == []
    ensures InOrder(c, StartStep(c, s, p))
  {
    hide Issue, MaySignal, Noted;
  }

  lemma LoopInOrder(c: Config, s: State, l: LoopPc, ch: Choice)
    requires ValidConfig(c) && InOrder(c, s) && s.pc == Loop(l) && s.frames == []
    ensures InOrder(c, LoopStep(c, s, l, ch))
  {
    hide ReadChunks;
    OverflowStays(c.limit, s.output.captured, ch.chunks);
  }

  lemma KillInOrder(c: Config, s: State, k: KillPc)
    requires ValidConfig(c) && InOrder(c, s) && s.pc == Killing(k) && s.frames == []
    ensures InOrder(c, KillStep(c, s, k))
  {
    hide Issue, MaySignal;
  }

  lemma ArmInOrder(c: Config, s: State, cause: Arm, p: ArmPc)
    requires ValidConfig(c) && InOrder(c, s) && s.pc == Arming(cause, p) && s.frames == []
    ensures InOrder(c, ArmStep(c, s, cause, p))
  {
    hide Issue, MaySignal, Noted;
  }

  lemma RaiseInOrder(c: Config, s: State)
    requires InOrder(c, s) && !Over(s.pc)
    ensures InOrder(c, Raise(s))
  {}

  lemma SettleUnhurried(c: Config, s: State, ch: Choice)
    requires s.pc.Settling? && Unhurried(c, s.pc, s.time, s.alarm)
    ensures var t := SettleStep(s, s.pc.settle, ch); Unhurried(c, t.pc, t.time, t.alarm)
  {
    hide Issue;
  }

  lemma SettleInOrder(c: Config, s: State, ch: Choice)
    requires InOrder(c, s) && s.pc.Settling?
    ensures InOrder(c, SettleStep(s, s.pc.settle, ch))
  {
    hide Issue, Unhurried;
    SettleUnhurried(c, s, ch);
  }

  lemma FailInOrder(c: Config, s: State, ch: Choice)
    requires InOrder(c, s) && s.pc.Failing?
    ensures InOrder(c, FailStep(s, s.pc.fail, ch))
  {
    hide Issue, MaySignal;
  }

  lemma MainInOrder(c: Config, s: State, ch: Choice)
    requires ValidConfig(c) && InOrder(c, s)
    ensures InOrder(c, MainStep(c, s, ch))
  {
    hide InOrder, StartStep, LoopStep, KillStep, ArmStep, SettleStep, FailStep, Raise;
    if s.frames != [] || Over(s.pc) {
    } else if ch.raises {
      RaiseInOrder(c, s);
    } else {
      match s.pc
      case Start(p) => StartInOrder(c, s, p);
      case Loop(l) => LoopInOrder(c, s, l, ch);
      case Killing(k) => KillInOrder(c, s, k);
      case Arming(cause, p) => ArmInOrder(c, s, cause, p);
      case Settling(_) => SettleInOrder(c, s, ch);
      case Failing(_) => FailInOrder(c, s, ch);
      case _ =>
    }
  }

  lemma CancelUnhurried(c: Config, s: State, top: Frame, below: seq<Frame>)
    requires ValidConfig(c) && Unhurried(c, s.pc, s.time, s.alarm)
    ensures var t := CancelStep(c, s, top, below); Unhurried(c, t.pc, t.time, t.alarm)
  {
    hide Issue, MaySignal, Noted;
  }

  lemma CancelCaused(c: Config, s: State, top: Frame, below: seq<Frame>)
    requires Caused(s.pc, s.alarm, s.output)
    ensures var t := CancelStep(c, s, top, below); Caused(t.pc, t.alarm, t.output)
  {
    hide Issue, MaySignal, Noted;
  }

  lemma CancelInOrder(c: Config, s: State, top: Frame, below: seq<Frame>)
    requires ValidConfig(c) && InOrder(c, s)
    ensures InOrder(c, CancelStep(c, s, top, below))
  {
    hide Issue, MaySignal, Noted, Unhurried, Caused;
    CancelUnhurried(c, s, top, below);
    CancelCaused(c, s, top, below);
  }

  lemma NextInOrder(c: Config, s: State, e: Event)
    requires ValidConfig(c) && InOrder(c, s)
    ensures InOrder(c, Next(c, s, e))
  {
    hide MainStep, CancelStep, Raise, Caused, Drained;
    match e
    case Step(ch) => MainInOrder(c, s, ch);
    case HandlerStep(raises) =>
      if !Over(s.pc) { RaiseInOrder(c, s); }
      if s.frames != [] { CancelInOrder(c, s, s.frames[|s.frames| - 1], s.frames[..|s.frames| - 1]); }
    case Interrupt(signum) =>
    case Tick(dt) =>
  }

  lemma {:induction false} RunInOrder(c: Config, clock: real, es: seq<Event>)
    requires ValidConfig(c)
    ensures InOrder(c, Run(c, Init(clock), es))
  {
    hide Next;
    if es != [] {
      RunInOrder(c, clock, es[..|es| - 1]);
      NextInOrder(c, Run(c, Init(clock), es[..|es| - 1]), es[|es| - 1]);
    }
  }

  /**
   * The escalation takes its time. In every run: a timeout is declared at its deadline and not
   * before; the group is not killed by a hard stop before a full grace period has passed since the
   * turn that first armed the deadline; the loop gives up on the leader only after a further post-kill
   * allowance; an abort was asked for or the output overflowed; and a returned run whose group was
   * not quiescent is marked as aborted.
   */
  lemma EscalationTakesTime(c: Config, clock: real, es: seq<Event>)
    requires ValidConfig(c)
    ensures var s := Run(c, Init(clock), es); var a := s.alarm;
            && (Inside(s.pc) ==>
                  && a.deadline == a.past.started + c.timeout
                  && (a.timedOut ==> a.deadline <= s.time.now)
                  && (a.hardStop ==> a.past.since.Some? && a.past.since.value + c.grace <= s.time.now)
                  && (a.aborted ==> a.past.asked || s.output.captured.overflow))
            && (a.past.gaveUp ==> a.past.since.Some? && a.past.since.value + c.grace + c.reap <= s.time.clock)
            && (s.pc.Returned? ==> s.output.leaderDone && !s.output.pipesOpen && !a.past.gaveUp)
            && (s.pc.Returned? && a.past.orphaned ==> a.aborted)
            && (Inside(s.pc) && !s.output.pipesOpen ==> s.output.eof || a.hardStop)
  {
    RunInOrder(c, clock, es);
  }

  /** The settlement bound, counted from the start of the clock. */
  lemma LeftInTime(c: Config, clock: real, es: seq<Event>)
    requires ValidConfig(c)
    ensures var s := Run(c, Init(clock), es);
            Inside(s.pc) ==>
              s.time.clock <= s.alarm.past.started + c.timeout + 2.0 * (c.grace + c.reap) + 8.0 * c.longest
  {
    hide Run;
    RunInOrder(c, clock, es);
    Settlement.SettlementBound(c, clock, es);
  }
}
