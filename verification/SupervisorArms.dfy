/** tools/process_supervisor.py: how often, and in which order, the grace deadline is armed. */
module SupervisorArms {
  import opened Wrappers
  import opened ProcessSupervisor
  import opened SupervisorSettlement

  // ---- what a log looks like ----

  /** The arms of the main program, as its flags tell: an abort, then a timeout. */
  function MainArms(pc: Pc, a: Alarm): seq<Arm> {
    (if a.aborted && !(pc.Arming? && pc.cause.OnAbort?) then [OnAbort] else [])
    + (if a.timedOut && !(pc.Arming? && pc.cause.OnTimeout?) then [OnTimeout] else [])
  }

  predicate MainOnly(arms: seq<Arm>) {
    arms == [] || arms == [OnAbort] || arms == [OnTimeout] || arms == [OnAbort, OnTimeout]
  }

  /** A subsequence of abort, timeout, interrupt. */
  predicate Ordered(arms: seq<Arm>) {
    MainOnly(arms) || (|arms| > 0 && arms[|arms| - 1] == OnInterrupt && MainOnly(arms[..|arms| - 1]))
  }

  predicate Distinct(arms: seq<Arm>) {
    forall i, j :: 0 <= i < j < |arms| ==> arms[i] != arms[j]
  }

  function Interrupts(n: nat): seq<Arm> { seq(n, _ => OnInterrupt) }

  /** The interrupts' arms come last, or just before the arm they cut into. */
  function Merge(main: seq<Arm>, cut: bool, n: nat): seq<Arm> {
    if cut && main != [] then main[..|main| - 1] + Interrupts(n) + [main[|main| - 1]] else main + Interrupts(n)
  }

  /** Some arms of the main program, and n arms of interrupts together. */
  ghost predicate Shape(arms: seq<Arm>, cut: bool, n: nat) {
    exists main :: MainOnly(main) && (cut ==> main != []) && arms == Merge(main, cut, n)
  }

  lemma MergeGrows(main: seq<Arm>, n: nat)
    ensures Merge(main, false, n) + [OnInterrupt] == Merge(main, false, n + 1)
  {}

  /** A log of two arms of interrupts repeats itself, and is no subsequence of the three causes. */
  lemma TwoInterrupts(log: seq<Arm>, i: nat, j: nat)
    requires i < j < |log| && log[i] == log[j] == OnInterrupt
    ensures !Distinct(log) && !Ordered(log)
  {
    assert log[..|log| - 1][i] == OnInterrupt;
  }

  lemma OneInterrupt(main: seq<Arm>, cut: bool)
    requires MainOnly(main) && (cut ==> main != [])
    ensures Distinct(Merge(main, cut, 1)) && (Ordered(Merge(main, cut, 1)) <==> !cut)
  {
    var log := Merge(main, cut, 1);
    assert Interrupts(1) == [OnInterrupt];
    if cut {
      assert log == if |main| == 1 then [OnInterrupt, main[0]] else [main[0], OnInterrupt, main[1]];
    } else {
      assert log[..|log| - 1] == main;
    }
  }

  lemma MergeFacts(main: seq<Arm>, cut: bool, n: nat)
    requires MainOnly(main) && (cut ==> main != [])
    ensures |Merge(main, cut, n)| == |main| + n <= 2 + n
    ensures Distinct(Merge(main, cut, n)) <==> n <= 1
    ensures Ordered(Merge(main, cut, n)) <==> n == 0 || (n == 1 && !cut)
  {
    var log := Merge(main, cut, n);
    if n == 0 {
      assert log == main;
    } else if n == 1 {
      OneInterrupt(main, cut);
    } else {
      hide Distinct, Ordered;
      var k := if cut then |main| - 1 else |main|;
      TwoInterrupts(log, k, k + 1);
    }
  }

  lemma ShapeFacts(arms: seq<Arm>, cut: bool, n: nat)
    requires Shape(arms, cut, n)
    ensures n <= |arms| <= 2 + n
    ensures Distinct(arms) <==> n <= 1
    ensures Ordered(arms) <==> n == 0 || (n == 1 && !cut)
  {
    hide Distinct, Ordered, Merge;
    var main :| MainOnly(main) && (cut ==> main != []) && arms == Merge(main, cut, n);
    MergeFacts(main, cut, n);
  }

  lemma ShapeGrows(arms: seq<Arm>, n: nat)
    requires Shape(arms, false, n)
    ensures Shape(arms + [OnInterrupt], false, n + 1)
  {
    hide MainOnly, Merge;
    var main :| MainOnly(main) && arms == Merge(main, false, n);
    MergeGrows(main, n);
  }

  // ---- the invariant ----

  predicate Cut(pc: Pc, a: Alarm) { a.log.midArm && !pc.Arming? }

  /** The whole log, read off the flags. */
  function Log(pc: Pc, a: Alarm): seq<Arm> { Merge(MainArms(pc, a), Cut(pc, a), a.log.handled) }

  /** Arming is under way for a reason that has not armed before. */
  predicate FirstTime(pc: Pc, a: Alarm) {
    && (pc.Arming? ==>
          && !pc.cause.OnInterrupt?
          && (if pc.cause.OnAbort? then !a.timedOut && (pc.arm.AFlag? <==> !a.aborted)
              else (pc.arm.AFlag? <==> !a.timedOut))
          && (a.interrupted.Some? ==> a.log.midArm))
    && (pc.Start? ==> !a.aborted && !a.timedOut)
    && (Cut(pc, a) ==> MainArms(pc, a) != [])
  }

  /** The main program has not left the loop. */
  predicate Early(pc: Pc) { pc.Start? || pc.Loop? || pc.Killing? || pc.Arming? }

  /** The handler has passed the test and has still to arm the deadline. */
  predicate Awaited(f: Frame) { f.Record? || ArmPending(f) }

  function Awaiting(frames: seq<Frame>): nat {
    if frames == [] then 0
    else Awaiting(frames[..|frames| - 1]) + if Awaited(frames[|frames| - 1]) then 1 else 0
  }

  predicate Excepted(pc: Pc) { pc.Failing? || pc.Raised? }

  /** While handlers are to arm, the main program stands still, so nothing has been cut off yet. */
  ghost predicate Counted(pc: Pc, a: Alarm, waiting: nat) {
    && (a.interrupted.None? ==> a.log.handled == 0 && !a.log.midArm)
    && (a.interrupted.Some? ==> a.log.passed > 0)
    && a.log.handled + waiting <= a.log.passed && (!Excepted(pc) ==> a.log.handled + waiting == a.log.passed)
    && (waiting > 0 && !Excepted(pc) ==> !Cut(pc, a))
  }

  ghost predicate Shaped(pc: Pc, a: Alarm, waiting: nat) {
    && (Early(pc) ==> FirstTime(pc, a) && a.log.arms == Log(pc, a))
    && (!Excepted(pc) ==> Shape(a.log.arms, Cut(pc, a), a.log.handled))
    && (Excepted(pc) ==>
          || Shape(a.log.arms, false, a.log.handled)
          || (Shape(a.log.arms, true, a.log.handled) && waiting == 0 && a.interrupted.Some?))
  }

  ghost predicate Logged(s: State) {
    && (s.alarm.interrupted.None? ==> !Pending(s.frames))
    && Counted(s.pc, s.alarm, Awaiting(s.frames))
    && Shaped(s.pc, s.alarm, Awaiting(s.frames))
  }

  lemma LogShape(pc: Pc, a: Alarm)
    requires FirstTime(pc, a) && a.log.arms == Log(pc, a)
    ensures Shape(a.log.arms, Cut(pc, a), a.log.handled)
  {
    hide Merge;
    assert MainOnly(MainArms(pc, a));
  }

  lemma NoneAwaited()
    ensures Awaiting([]) == 0 && !Pending([])
  {}

  lemma AwaitingTop(below: seq<Frame>, top: Frame)
    ensures Awaiting(below + [top]) == Awaiting(below) + if Awaited(top) then 1 else 0
  {
    assert (below + [top])[..|below|] == below;
  }

  // ---- the main program ----

  /** The parts of the alarm that the log depends on. */
  predicate SameArms(a: Alarm, b: Alarm) {
    a.aborted == b.aborted && a.timedOut == b.timedOut && a.interrupted == b.interrupted && a.log == b.log
  }

  /** A statement outside the arming branches keeps the log, and enters such a branch only for a new reason. */
  lemma QuietStep(s: State, c: Config, ch: Choice)
    requires s.pc.Start? || s.pc.Loop? || s.pc.Killing?
    requires s.pc == Start(EarlyArm) ==> s.alarm.grace.Some?
    ensures var t := MainStep(c, s, ch);
            && SameArms(s.alarm, t.alarm)
            && (s.frames == [] && t.pc.Start? ==> s.pc.Start?)
            && (t.pc.Arming? ==>
                  && t.pc.arm.AFlag? && !t.pc.cause.OnInterrupt? && !s.alarm.timedOut && s.alarm.interrupted.None?
                  && (t.pc.cause.OnAbort? ==> !s.alarm.aborted))
  {
    hide WaitForOutput, IsOverdue, Issue, MaySignal;
  }

  /** So the log stays what the flags tell. */
  lemma QuietLog(pc: Pc, a: Alarm, pc': Pc, a': Alarm)
    requires !pc.Arming? && FirstTime(pc, a) && SameArms(a, a') && a.log.arms == Log(pc, a)
    requires a.interrupted.None? ==> !a.log.midArm
    requires pc'.Start? ==> pc.Start?
    requires pc'.Arming? ==> pc'.arm.AFlag? && !pc'.cause.OnInterrupt? && !a.timedOut && a.interrupted.None?
    requires pc'.Arming? && pc'.cause.OnAbort? ==> !a.aborted
    ensures FirstTime(pc', a') && a'.log.arms == Log(pc', a')
  {
    hide Merge;
  }

  /** Arming for a new reason appends it to the log, after the interrupts that cut in. */
  lemma ArmAppends(pc: Pc, a: Alarm, t: Time, until: real)
    requires pc.Arming? && pc.arm.AArm? && FirstTime(pc, a) && a.log.arms == Log(pc, a)
    requires a.interrupted.None? ==> a.log.handled == 0 && !a.log.midArm
    ensures var b := Armed(a, t, until, pc.cause); FirstTime(Loop(Wait), b) && b.log.arms == Log(Loop(Wait), b)
  {
    var before, n := MainArms(pc, a), a.log.handled;
    var after := before + [pc.cause];
    assert MainArms(Loop(Wait), Armed(a, t, until, pc.cause)) == after;
    assert after[..|after| - 1] == before;
    assert a.log.midArm ==> Merge(after, true, n) == Merge(before, false, n) + [pc.cause];
    assert !a.log.midArm ==> Merge(after, false, 0) == after && Merge(before, false, 0) == before;
  }

  lemma ArmLogs(s: State, c: Config)
    requires s.pc.Arming? && FirstTime(s.pc, s.alarm) && s.alarm.log.arms == Log(s.pc, s.alarm)
    requires s.alarm.interrupted.None? ==> s.alarm.log.handled == 0 && !s.alarm.log.midArm
    ensures var t := ArmStep(c, s, s.pc.cause, s.pc.arm);
            && Early(t.pc) && FirstTime(t.pc, t.alarm) && t.alarm.log.arms == Log(t.pc, t.alarm)
            && t.alarm.interrupted == s.alarm.interrupted
            && t.alarm.log == s.alarm.log.(arms := t.alarm.log.arms)
  {
    hide Issue, MaySignal, Merge;
    if s.pc.arm.AArm? {
      ArmAppends(s.pc, s.alarm, s.time, s.time.now + c.grace);
    }
  }

  /** Settling and failing leave the log alone, and only the loop leads to settling. */
  lemma LateSteps(s: State, c: Config, ch: Choice)
    ensures var t := MainStep(c, s, ch);
            && (!Early(s.pc) ==>
                  && t.alarm.log == s.alarm.log && t.alarm.interrupted == s.alarm.interrupted && !Early(t.pc)
                  && (!Excepted(t.pc) ==> !Excepted(s.pc)))
            && (s.pc.Arming? || s.pc.Start? ==> Early(t.pc) || Excepted(t.pc))
            && (s.frames == [] ==> t.frames == [])
            && (s.frames != [] ==> t == s)
  {
    hide WaitForOutput, IsOverdue, Issue, MaySignal, Armed;
  }

  /** One statement of the main program before or in the loop. */
  lemma EarlyStep(s: State, c: Config, ch: Choice)
    requires Logged(s) && Early(s.pc) && s.frames == []
    requires s.pc == Start(EarlyArm) ==> s.alarm.grace.Some?
    ensures var t := MainStep(c, s, ch);
            && (Early(t.pc) ==> FirstTime(t.pc, t.alarm) && t.alarm.log.arms == Log(t.pc, t.alarm))
            && t.alarm.interrupted == s.alarm.interrupted
            && t.alarm.log == s.alarm.log.(arms := t.alarm.log.arms)
            && (!Early(t.pc) ==> t.alarm.log == s.alarm.log)
  {
    hide Log, FirstTime, Shape;
    var t := MainStep(c, s, ch);
    if s.pc.Arming? {
      hide ArmStep;
      ArmLogs(s, c);
    } else {
      hide MainStep;
      QuietStep(s, c, ch);
      QuietLog(s.pc, s.alarm, t.pc, t.alarm);
    }
  }

  lemma MainKeepsLog(s: State, c: Config, ch: Choice)
    requires Logged(s)
    requires s.pc == Start(EarlyArm) && s.frames == [] ==> s.alarm.grace.Some?
    ensures Logged(MainStep(c, s, ch))
  {
    hide MainStep, Log, FirstTime, Pending, Shape, Awaiting;
    var t := MainStep(c, s, ch);
    LateSteps(s, c, ch);
    NoneAwaited();
    if s.frames == [] && Early(s.pc) {
      EarlyStep(s, c, ch);
      LogShape(s.pc, s.alarm);
      if Early(t.pc) { LogShape(t.pc, t.alarm); }
    }
  }

  // ---- the handler ----

  /** A handler that has recorded the interrupt appends its arm. */
  lemma InterruptLogs(pc: Pc, a: Alarm, t: Time, until: real)
    requires Early(pc) && FirstTime(pc, a) && a.log.arms == Log(pc, a) && !Cut(pc, a)
    ensures var b := Armed(a, t, until, OnInterrupt); FirstTime(pc, b) && b.log.arms == Log(pc, b)
  {
    hide Merge;
    MergeGrows(MainArms(pc, a), a.log.handled);
  }

  lemma SetGraceLogs(s: State, c: Config, below: seq<Frame>)
    requires Logged(s) && s.frames == below + [SetGrace]
    ensures Logged(CancelStep(c, s, SetGrace, below))
  {
    hide Pending, Log, FirstTime, Shape, Awaiting;
    AwaitingTop(below, SetGrace);
    PendingTop(below, SetGrace);
    ShapeGrows(s.alarm.log.arms, s.alarm.log.handled);
    if Early(s.pc) { InterruptLogs(s.pc, s.alarm, s.time, s.time.clock + c.grace); }
  }

  /** Recording an interrupt leaves the log as it is. */
  lemma RecordedLogs(pc: Pc, a: Alarm, signum: int)
    requires FirstTime(pc, a) && a.log.arms == Log(pc, a) && !Cut(pc, a)
    ensures var b := Recorded(a, signum, pc.Arming?); FirstTime(pc, b) && b.log.arms == Log(pc, b) && !Cut(pc, b)
  {
    hide Merge;
  }

  lemma RecordLogs(s: State, c: Config, signum: int, below: seq<Frame>)
    requires Logged(s) && s.frames == below + [Record(signum)]
    ensures Logged(CancelStep(c, s, Record(signum), below))
  {
    hide Pending, Log, FirstTime, Shape, Awaiting;
    AwaitingTop(below, Record(signum));
    AwaitingTop(below, TermTest);
    if Early(s.pc) { RecordedLogs(s.pc, s.alarm, signum); }
  }

  /** Neither passing the test nor the rest of the past makes a difference to the log. */
  lemma PassedLogs(pc: Pc, a: Alarm, passed: nat, past: Past)
    requires FirstTime(pc, a) && a.log.arms == Log(pc, a)
    ensures var b := a.(log := a.log.(passed := passed), past := past); FirstTime(pc, b) && b.log.arms == Log(pc, b)
  {
    hide Merge;
  }

  lemma BeginLogs(s: State, c: Config, signum: int, below: seq<Frame>)
    requires Logged(s) && s.frames == below + [Begin(signum)]
    ensures Logged(CancelStep(c, s, Begin(signum), below))
  {
    hide Pending, Log, FirstTime, Shape, Awaiting;
    AwaitingTop(below, Begin(signum));
    AwaitingTop(below, KillTest);
    AwaitingTop(below, Record(signum));
    PendingTop(below, Begin(signum));
    PendingTop(below, KillTest);
    PendingTop(below, Record(signum));
    var t := CancelStep(c, s, Begin(signum), below);
    if Early(s.pc) { PassedLogs(s.pc, s.alarm, t.alarm.log.passed, t.alarm.past); }
  }

  /** The other statements of a handler leave everything to do with the log alone. */
  lemma OtherLogs(s: State, c: Config, top: Frame, below: seq<Frame>)
    requires Logged(s) && s.frames == below + [top]
    requires top.KillTest? || top.KillIssue? || top.TermTest? || top.TermIssue?
    ensures Logged(CancelStep(c, s, top, below))
  {
    hide Pending, Log, FirstTime, Shape, Awaiting, Issue, MaySignal;
    var t := CancelStep(c, s, top, below);
    AwaitingTop(below, top);
    PendingTop(below, top);
    if t.frames != below {
      var f := t.frames[|below|];
      assert t.frames == below + [f];
      AwaitingTop(below, f);
      PendingTop(below, f);
    }
  }

  lemma CancelKeepsLog(s: State, c: Config, top: Frame, below: seq<Frame>)
    requires Logged(s) && s.frames == below + [top]
    ensures Logged(CancelStep(c, s, top, below))
  {
    hide Logged, CancelStep;
    match top
    case Begin(signum) => BeginLogs(s, c, signum, below);
    case Record(signum) => RecordLogs(s, c, signum, below);
    case SetGrace => SetGraceLogs(s, c, below);
    case _ => OtherLogs(s, c, top, below);
  }

  lemma RaiseKeepsLog(s: State)
    requires Logged(s)
    ensures Logged(Raise(s))
  {
    hide Log, FirstTime, Shape, Awaiting, Pending;
    NoneAwaited();
  }

  lemma NextKeepsLog(s: State, c: Config, e: Event)
    requires Logged(s)
    requires s.pc == Start(EarlyArm) && s.frames == [] ==> s.alarm.grace.Some?
    ensures Logged(Next(c, s, e))
  {
    hide MainStep, CancelStep, Raise, Pending, Awaiting, Counted, Shaped;
    match e
    case Step(ch) => MainKeepsLog(s, c, ch);
    case Interrupt(signum) =>
      PendingTop(s.frames, Begin(signum));
      AwaitingTop(s.frames, Begin(signum));
    case HandlerStep(raises) =>
      RaiseKeepsLog(s);
      if s.frames != [] {
        var n := |s.frames| - 1;
        assert s.frames == s.frames[..n] + [s.frames[n]];
        CancelKeepsLog(s, c, s.frames[n], s.frames[..n]);
      }
    case Tick(dt) =>
  }

  lemma {:induction false} RunIsLogged(c: Config, clock: real, es: seq<Event>)
    requires ValidConfig(c)
    ensures Logged(Run(c, Init(clock), es))
  {
    hide Next, Logged;
    if es == [] {
      InitIsLogged(clock);
    } else {
      RunIsLogged(c, clock, es[..|es| - 1]);
      EarlyFallbackIsDead(c, clock, es[..|es| - 1]);
      NextKeepsLog(Run(c, Init(clock), es[..|es| - 1]), c, es[|es| - 1]);
    }
  }

  lemma InitIsLogged(clock: real)
    ensures Logged(Init(clock))
  {
    LogShape(Init(clock).pc, Init(clock).alarm);
  }

  /**
   * How often the grace deadline is armed, in every run. As long as at most one handler has found
   * no interrupt recorded, it is armed at most three times and each cause arms at most once.
   * With no handler active and no exception raised this is exact: each handler that passed the
   * test has armed once, so the arms are distinct exactly when no second handler passed it before
   * the first had recorded; and they come in the order abort, timeout, interrupt exactly when,
   * besides, the interrupt was not recorded inside a branch that has since armed.
   */
  lemma ArmOrder(c: Config, clock: real, es: seq<Event>)
    requires ValidConfig(c)
    ensures var s := Run(c, Init(clock), es); var l := s.alarm.log;
            && (l.passed <= 1 ==> |l.arms| <= 3 && Distinct(l.arms))
            && |l.arms| <= 2 + l.passed
            && (s.frames == [] && !Excepted(s.pc) ==>
                  && l.handled == l.passed
                  && (|l.arms| <= 3 && Distinct(l.arms) <==> l.passed <= 1)
                  && (Ordered(l.arms) <==> l.passed <= 1 && (!l.midArm || s.pc.Arming?)))
  {
    hide Run, Log, FirstTime, Shape, Ordered, Distinct;
    RunIsLogged(c, clock, es);
    NoneAwaited();
    var s := Run(c, Init(clock), es);
    var l := s.alarm.log;
    if Excepted(s.pc) && !Shape(l.arms, false, l.handled) {
      ShapeFacts(l.arms, true, l.handled);
    } else {
      ShapeFacts(l.arms, !Excepted(s.pc) && Cut(s.pc, s.alarm), l.handled);
    }
  }
}
