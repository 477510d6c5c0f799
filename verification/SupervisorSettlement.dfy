/** tools/process_supervisor.py: the supervision loop leaves within a fixed time. */
module SupervisorSettlement {
  import opened Wrappers
  import opened ProcessSupervisor

  // ---- latest times, by how far the run has escalated ----

  /** 0: neither timed out nor interrupted; 1: timed out; 2: interrupted. */
  function Phase(a: Alarm): nat {
    if a.interrupted.Some? then 2 else if a.timedOut then 1 else 0
  }

  function FirstGrace(c: Config, d: real): real { d + 2.0 * c.longest + c.grace }
  function FirstHard(c: Config, d: real): real { FirstGrace(c, d) + c.longest + c.reap }
  function SecondGrace(c: Config, d: real): real { FirstHard(c, d) + 2.0 * c.longest + c.grace }

  /** Latest grace deadline. */
  function GraceMax(c: Config, a: Alarm): real {
    if Phase(a) == 0 then a.deadline + c.grace
    else if Phase(a) == 1 then FirstGrace(c, a.deadline) else SecondGrace(c, a.deadline)
  }

  /** Latest start of a turn that kills. */
  function KillMax(c: Config, a: Alarm): real {
    if Phase(a) == 0 then a.deadline + c.longest
    else if Phase(a) == 1 then FirstGrace(c, a.deadline) + c.longest else SecondGrace(c, a.deadline) + c.longest
  }

  /** Latest hard deadline. */
  function HardMax(c: Config, a: Alarm): real { KillMax(c, a) + c.reap }

  /** Latest start of any turn. */
  function TurnMax(c: Config, a: Alarm): real {
    if Phase(a) == 0 then a.deadline + 2.0 * c.longest else HardMax(c, a) + c.longest
  }

  /** Latest start of a turn before the first interrupt. */
  function CalmMax(c: Config, a: Alarm): real { FirstHard(c, a.deadline) + c.longest }

  // ---- the invariant ----

  predicate ArmPending(f: Frame) { f.TermTest? || f.TermIssue? || f.SetGrace? }

  /** Some active handler has recorded the interrupt but not yet set the grace deadline. */
  ghost predicate Pending(frames: seq<Frame>) {
    exists i :: 0 <= i < |frames| && ArmPending(frames[i])
  }

  /** Some active handler has found no interrupt recorded and is about to record its own. */
  ghost predicate ToRecord(frames: seq<Frame>) {
    exists i :: 0 <= i < |frames| && frames[i].Record?
  }

  /** The turn has not yet compared its time with the grace deadline. */
  predicate Fresh(pc: Pc, a: Alarm) {
    pc == Loop(Cond1) || (pc == Loop(Cond2) && a.interrupted.Some?)
        || (pc.Killing? && (pc.kill.KCheck? || pc.kill.KSend? || pc.kill.KClear?))
  }

  /** Deadlines and the turn start stay below their latest times. */
  ghost predicate Bounded(c: Config, pc: Pc, t: Time, a: Alarm) {
    && t.now <= t.clock <= t.now + c.longest
    && t.now <= TurnMax(c, a)
    && (a.grace.Some? ==> a.grace.value <= GraceMax(c, a))
    && (a.hardDeadline.Some? ==> a.hardDeadline.value <= HardMax(c, a))
    && (a.killTurn ==> a.hardStop && t.now <= KillMax(c, a))
    && (pc.Killing? ==> t.now <= KillMax(c, a))
    && (pc.Arming? ==> t.now <= a.deadline + 2.0 * c.longest)
  }

  /** A run that is neither timed out nor interrupted. */
  ghost predicate CalmTurn(c: Config, pc: Pc, t: Time, a: Alarm) {
    && (a.hardStop ==> a.grace.None?)
    && (a.hardStop || a.grace.Some? || pc.Killing? ==> a.aborted)
    && (pc == Loop(Cond1) || pc == Loop(Cond2) || pc == Loop(Cond3) ==> t.now <= a.deadline + c.longest || a.hardStop)
    && (!(pc == Loop(Cond1) || pc == Loop(Cond2) || pc == Loop(Cond3) || pc.Killing?
        || pc == Arming(OnTimeout, AFlag)) ==>
          t.now < a.deadline || (a.hardStop && t.now <= a.deadline + c.longest))
    && (pc.Arming? ==> if pc.cause.OnAbort? then !a.hardStop && t.now < a.deadline else pc.arm.AFlag?)
    && (pc == Killing(KFlag) || pc == Killing(KDeadline) ==> a.grace.None?)
    && (pc == Killing(KDeadline) ==> a.hardStop)
    && (pc.Arming? && !pc.arm.AFlag? ==> a.aborted)
  }

  /** A run that is to end: an unexpired grace deadline or a hard stop is in force. */
  ghost predicate EndingTurn(c: Config, pc: Pc, frames: seq<Frame>, t: Time, a: Alarm) {
    && (a.grace.Some? ==> t.now <= if Fresh(pc, a) then KillMax(c, a) else GraceMax(c, a))
    && (pc == Loop(Top) ==> t.now <= HardMax(c, a))
    && (!Pending(frames) && !pc.Arming? && pc != Killing(KFlag) ==> a.grace.Some? || a.hardStop)
    && (Pending(frames) ==> t.now <= CalmMax(c, a) && a.interrupted.Some?)
    && (a.interrupted.Some? && ToRecord(frames) ==> t.now <= CalmMax(c, a))
  }

  /** Pipes outlive the hard stop only within the turn that caused it. */
  ghost predicate PipesClosed(pc: Pc, a: Alarm, o: Output) {
    && (a.hardStop && o.pipesOpen ==> a.killTurn)
    && ((pc == Loop(Overdue) || pc == Loop(Top)) && a.hardStop ==> !o.pipesOpen)
    && ((pc == Loop(Drain) || pc == Loop(Overdue)) && a.hardStop && o.leaderDone ==> a.killTurn)
    && (a.hardStop && pc != Killing(KDeadline) ==> a.hardDeadline.Some?)
  }

  /** Before the loop nothing but an interrupt can have happened. */
  ghost predicate Early(c: Config, s: State)
    requires s.pc.Start?
  {
    var a := s.alarm;
    && !a.timedOut && !a.aborted && !a.hardStop && a.hardDeadline.None? && !a.killTurn
    && (a.interrupted.None? ==> a.grace.None? && !Pending(s.frames))
    && (a.interrupted.Some? && !Pending(s.frames) ==> a.grace.Some?)
    && (a.grace.Some? ==> a.grace.value <= s.time.clock + c.grace)
    && (s.pc.start.EarlyCheck? || s.pc.start.EarlySend? || s.pc.start.EarlyArm? ==> a.interrupted.Some?)
  }

  ghost predicate Timely(c: Config, s: State) {
    && (s.pc.Start? ==> Early(c, s))
    && (InLoop(s.pc) ==>
          && Bounded(c, s.pc, s.time, s.alarm)
          && (Phase(s.alarm) == 0 ==> CalmTurn(c, s.pc, s.time, s.alarm) && !Pending(s.frames))
          && (Phase(s.alarm) > 0 ==> EndingTurn(c, s.pc, s.frames, s.time, s.alarm))
          && PipesClosed(s.pc, s.alarm, s.output))
  }

  // ---- the main program ----

  lemma StartKeeps(c: Config, s: State, p: StartPc)
    requires ValidConfig(c) && Timely(c, s) && s.pc == Start(p) && s.frames == []
    ensures Timely(c, StartStep(c, s, p))
  {
    hide Issue, MaySignal, Pending;
    NonePending();
  }

  lemma DecideKeeps(c: Config, s: State, l: LoopPc, ch: Choice)
    requires ValidConfig(c) && Timely(c, s) && s.pc == Loop(l) && s.frames == []
    requires l.Top? || l.Cond1? || l.Cond2? || l.Cond3? || l.Cond4?
    ensures Timely(c, LoopStep(c, s, l, ch))
  {
    hide WaitForOutput, IsOverdue, Pending, ToRecord;
    NonePending();
  }

  lemma WatchKeeps(c: Config, s: State, l: LoopPc, ch: Choice)
    requires ValidConfig(c) && Timely(c, s) && s.pc == Loop(l) && s.frames == []
    requires l.Wait? || l.Observe? || l.Drain? || l.Overdue?
    ensures Timely(c, LoopStep(c, s, l, ch))
  {
    hide ReadChunks, Pending, ToRecord;
    NonePending();
  }

  lemma KillKeeps(c: Config, s: State, k: KillPc)
    requires ValidConfig(c) && Timely(c, s) && s.pc == Killing(k) && s.frames == []
    ensures Timely(c, KillStep(c, s, k))
  {
    hide Issue, MaySignal, Pending;
    NonePending();
  }

  lemma ArmKeeps(c: Config, s: State, cause: Arm, p: ArmPc)
    requires ValidConfig(c) && Timely(c, s) && s.pc == Arming(cause, p) && s.frames == []
    ensures Timely(c, ArmStep(c, s, cause, p))
  {
    hide Issue, MaySignal, Pending;
    NonePending();
  }

  lemma NonePending()
    ensures !Pending([]) && !ToRecord([])
  {}

  lemma MainKeeps(c: Config, s: State, ch: Choice)
    requires ValidConfig(c) && Timely(c, s)
    ensures Timely(c, MainStep(c, s, ch))
  {
    hide Timely, StartStep, LoopStep, KillStep, ArmStep;
    OutsideLoop(c, s, ch);
    if s.frames == [] && !ch.raises {
      match s.pc
      case Start(p) => StartKeeps(c, s, p);
      case Loop(l) =>
        if l.Wait? || l.Observe? || l.Drain? || l.Overdue? {
          WatchKeeps(c, s, l, ch);
        } else {
          DecideKeeps(c, s, l, ch);
        }
      case Killing(k) => KillKeeps(c, s, k);
      case Arming(cause, p) => ArmKeeps(c, s, cause, p);
      case _ =>
    }
  }

  /** Settling and failing never come back to the loop. */
  lemma OutsideLoop(c: Config, s: State, ch: Choice)
    ensures Timely(c, Raise(s))
    ensures s.pc.Settling? ==> Timely(c, SettleStep(s, s.pc.settle, ch))
    ensures s.pc.Failing? ==> Timely(c, FailStep(s, s.pc.fail, ch))
  {}

  // ---- the handler ----

  lemma PendingTop(below: seq<Frame>, top: Frame)
    ensures Pending(below + [top]) <==> Pending(below) || ArmPending(top)
  {
    var all := below + [top];
    assert all[|below|] == top;
    assert forall i :: 0 <= i < |below| ==> all[i] == below[i];
    if Pending(below) {
      var i :| 0 <= i < |below| && ArmPending(below[i]);
      assert ArmPending(all[i]);
    }
  }

  lemma ToRecordTop(below: seq<Frame>, top: Frame)
    ensures ToRecord(below + [top]) <==> ToRecord(below) || top.Record?
  {
    var all := below + [top];
    assert all[|below|] == top;
    assert forall i :: 0 <= i < |below| ==> all[i] == below[i];
    if ToRecord(below) {
      var i :| 0 <= i < |below| && below[i].Record?;
      assert all[i].Record?;
    }
  }

  /** Recording an interrupt: the run is to end, and the handler is about to arm the grace deadline. */
  lemma RecordKeeps(c: Config, s: State, signum: int, below: seq<Frame>)
    requires ValidConfig(c) && Timely(c, s) && s.frames == below + [Record(signum)]
    ensures Timely(c, CancelStep(c, s, Record(signum), below))
  {
    hide Pending, ToRecord;
    PendingTop(below, TermTest);
    ToRecordTop(below, Record(signum));
    ToRecordTop(below, TermTest);
  }

  lemma SetGraceKeeps(c: Config, s: State, below: seq<Frame>)
    requires ValidConfig(c) && Timely(c, s) && s.frames == below + [SetGrace]
    ensures Timely(c, CancelStep(c, s, SetGrace, below))
  {
    hide Pending, ToRecord;
    PendingTop(below, SetGrace);
    ToRecordTop(below, SetGrace);
  }

  /** The other statements of a handler change nothing that a deadline depends on. */
  lemma OtherKeeps(c: Config, s: State, top: Frame, below: seq<Frame>)
    requires Timely(c, s) && s.frames == below + [top] && !top.Record? && !top.SetGrace?
    ensures Timely(c, CancelStep(c, s, top, below))
  {
    hide Pending, ToRecord, Issue, MaySignal;
    var s' := CancelStep(c, s, top, below);
    PendingTop(below, top);
    ToRecordTop(below, top);
    if s'.frames != below {
      var f := s'.frames[|below|];
      assert s'.frames == below + [f];
      PendingTop(below, f);
      ToRecordTop(below, f);
    }
  }

  lemma CancelKeeps(c: Config, s: State, top: Frame, below: seq<Frame>)
    requires ValidConfig(c) && Timely(c, s) && s.frames == below + [top]
    ensures Timely(c, CancelStep(c, s, top, below))
  {
    hide Timely, CancelStep;
    match top
    case Record(signum) => RecordKeeps(c, s, signum, below);
    case SetGrace => SetGraceKeeps(c, s, below);
    case _ => OtherKeeps(c, s, top, below);
  }

  lemma NextKeeps(c: Config, s: State, e: Event)
    requires ValidConfig(c) && Timely(c, s)
    ensures Timely(c, Next(c, s, e))
  {
    hide MainStep, CancelStep, Pending, ToRecord;
    match e
    case Step(ch) => MainKeeps(c, s, ch);
    case Interrupt(signum) =>
      PendingTop(s.frames, Begin(signum));
      ToRecordTop(s.frames, Begin(signum));
    case HandlerStep(raises) =>
      OutsideLoop(c, s, Choice(false, false, [], false, false, false, false, false));
      if s.frames != [] {
        var n := |s.frames| - 1;
        assert s.frames == s.frames[..n] + [s.frames[n]];
        CancelKeeps(c, s, s.frames[n], s.frames[..n]);
      }
    case Tick(dt) =>
  }

  lemma {:induction false} RunIsTimely(c: Config, clock: real, es: seq<Event>)
    requires ValidConfig(c)
    ensures Timely(c, Run(c, Init(clock), es))
  {
    hide Next;
    if es != [] {
      RunIsTimely(c, clock, es[..|es| - 1]);
      NextKeeps(c, Run(c, Init(clock), es[..|es| - 1]), es[|es| - 1]);
    }
  }

  /**
   * The settlement bound. In every run, whatever the pipes and the leader do, the loop is
   * left within the timeout plus two grace-and-reap allowances plus eight loop turns.
   */
  lemma SettlementBound(c: Config, clock: real, es: seq<Event>)
    requires ValidConfig(c)
    ensures var s := Run(c, Init(clock), es);
            InLoop(s.pc) ==>
              s.time.clock <= s.alarm.deadline + 2.0 * (c.grace + c.reap) + 8.0 * c.longest
  {
    RunIsTimely(c, clock, es);
  }

  /** The fallback that arms the grace deadline before the loop is never needed: the handler has armed it. */
  lemma EarlyFallbackIsDead(c: Config, clock: real, es: seq<Event>)
    requires ValidConfig(c)
    ensures var s := Run(c, Init(clock), es);
            s.pc == Start(EarlyArm) && s.frames == [] ==> s.alarm.grace.Some?
  {
    RunIsTimely(c, clock, es);
  }

  // ---- the number of turns ----

  /** Time that `n` turns of the least length take. */
  function Spent(c: Config, n: nat): real { n as real * c.shortest }

  ghost predicate Paced(c: Config, s: State) {
    && (s.pc.Start? ==> s.time.turns == 0)
    && (InLoop(s.pc) ==> Spent(c, s.time.turns) <= s.time.now - (s.alarm.deadline - c.timeout))
  }

  lemma NextKeepsPace(c: Config, s: State, e: Event)
    requires Paced(c, s)
    ensures Paced(c, Next(c, s, e))
  {
    hide WaitForOutput, Issue, IsOverdue, MaySignal;
  }

  lemma {:induction false} RunIsPaced(c: Config, clock: real, es: seq<Event>)
    ensures Paced(c, Run(c, Init(clock), es))
  {
    hide Next;
    if es != [] {
      RunIsPaced(c, clock, es[..|es| - 1]);
      NextKeepsPace(c, Run(c, Init(clock), es[..|es| - 1]), es[|es| - 1]);
    }
  }

  /** If every turn takes at least the configured time, the number of turns is bounded as well. */
  lemma TurnBound(c: Config, clock: real, es: seq<Event>)
    requires ValidConfig(c)
    ensures var s := Run(c, Init(clock), es);
            InLoop(s.pc) ==>
              s.time.turns as real * c.shortest <= c.timeout + 2.0 * (c.grace + c.reap) + 8.0 * c.longest
  {
    hide Run, Timely;
    SettlementBound(c, clock, es);
    RunIsPaced(c, clock, es);
    RunIsTimely(c, clock, es);
    ReadingIsPast(c, Run(c, Init(clock), es));
  }

  lemma ReadingIsPast(c: Config, s: State)
    requires Timely(c, s)
    ensures InLoop(s.pc) ==> s.time.now <= s.time.clock
  {}
}
