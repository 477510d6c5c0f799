/** tools/process_supervisor.py: concrete runs of run_process. */
module SupervisorRuns {
  import opened Wrappers
  import opened ProcessSupervisor

  /** All times are one second, and a turn may take no time. */
  function Short(limit: Option<nat>): Config { Config(1.0, 1.0, 1.0, 1.0, 0.0, limit) }

  ghost predicate Reaches(limit: Option<nat>, s: State) {
    exists es :: Run(Short(limit), Init(0.0), es) == s
  }

  lemma OneMore(limit: Option<nat>, s: State, e: Event)
    requires Reaches(limit, s)
    ensures Reaches(limit, Next(Short(limit), s, e))
  {
    hide Next;
    var es :| Run(Short(limit), Init(0.0), es) == s;
    var more := es + [e];
    assert more[..|more| - 1] == es;
    assert Run(Short(limit), Init(0.0), more) == Next(Short(limit), s, e);
  }

  /** Nothing happens: no exception, no output, the leader goes on. */
  const QUIET := Choice(false, false, [], true, false, false, false, false)

  lemma Reached(limit: Option<nat>, s: State, choice: Choice, next: State)
    requires Reaches(limit, s) && MainStep(Short(limit), s, choice) == next
    ensures Reaches(limit, next)
  {
    hide Reaches, MainStep;
    OneMore(limit, s, Step(choice));
  }

  lemma Waited(limit: Option<nat>, s: State, next: State)
    requires Reaches(limit, s) && Elapse(Short(limit), s, 1.0) == next
    ensures Reaches(limit, next)
  {
    hide Reaches, Elapse;
    OneMore(limit, s, Tick(1.0));
  }

  lemma Handled(limit: Option<nat>, s: State, next: State)
    requires Reaches(limit, s) && HandlerMove(Short(limit), s, false) == next
    ensures Reaches(limit, next)
  {
    hide Reaches, HandlerMove;
    OneMore(limit, s, HandlerStep(false));
  }

  // ---- common parts ----

  /** The loop is entered at time 0, with the timeout at 1. */
  const ENTERED :=
    Init(0.0).(pc := Loop(Top), group := Group(true, false, false, []), alarm := Init(0.0).alarm.(deadline := 1.0))

  lemma Enters(limit: Option<nat>)
    ensures Reaches(limit, ENTERED)
  {
    var s0 := Init(0.0);
    assert Run(Short(limit), s0, []) == s0;
    assert Reaches(limit, s0);
    hide Reaches;
    var s1 := s0.(pc := Start(Register), group := Group(true, false, false, []));
    Reached(limit, s0, QUIET, s1);
    var s2 := s1.(pc := Start(SetDeadline));
    Reached(limit, s1, QUIET, s2);
    var s3 := s2.(pc := Start(CheckEarly), alarm := s2.alarm.(deadline := 1.0));
    Reached(limit, s2, QUIET, s3);
    Reached(limit, s3, QUIET, ENTERED);
  }

  /** A signal arrives and its handler finds no interrupt recorded. */
  function Passed(s: State): State {
    s.(frames := s.frames + [Record(2)], alarm := s.alarm.(log := s.alarm.log.(passed := s.alarm.log.passed + 1)))
  }

  lemma Passes(limit: Option<nat>, s: State)
    requires Reaches(limit, s) && !Over(s.pc) && s.alarm.interrupted.None?
    ensures Reaches(limit, Passed(s))
  {
    hide Reaches;
    OneMore(limit, s, Interrupt(2));
    var s1 := s.(frames := s.frames + [Begin(2)]);
    assert Next(Short(limit), s, Interrupt(2)) == s1;
    assert s1.frames[..|s1.frames| - 1] == s.frames;
    Handled(limit, s1, Passed(s));
  }

  /** A handler past its test records, signals, arms and returns. */
  function Done(s: State): State
    requires s.frames != []
  {
    s.(frames := s.frames[..|s.frames| - 1], group := Issue(s.group, TERM),
       alarm := Armed(Recorded(s.alarm, 2, s.pc.Arming?), s.time, s.time.clock + 1.0, OnInterrupt))
  }

  lemma Finishes(limit: Option<nat>, s: State, below: seq<Frame>)
    requires Reaches(limit, s) && !Over(s.pc) && s.frames == below + [Record(2)] && MaySignal(s.group)
    ensures Reaches(limit, Done(s))
  {
    hide Reaches, Armed;
    var s1 := s.(frames := below + [TermTest], alarm := Recorded(s.alarm, 2, s.pc.Arming?));
    assert s.frames[..|below|] == below && s1.frames[..|below|] == below;
    Handled(limit, s, s1);
    var s2 := s1.(frames := below + [TermIssue]);
    assert s2.frames[..|below|] == below;
    Handled(limit, s1, s2);
    var s3 := s2.(frames := below + [SetGrace], group := Issue(s.group, TERM));
    assert s3.frames[..|below|] == below;
    Handled(limit, s2, s3);
    Handled(limit, s3, Done(s));
  }

  lemma TakesInterrupt(limit: Option<nat>, s: State)
    requires Reaches(limit, s) && !Over(s.pc) && s.frames == [] && s.alarm.interrupted.None? && MaySignal(s.group)
    ensures Reaches(limit, Done(Passed(s)))
  {
    hide Reaches;
    Passes(limit, s);
    Finishes(limit, Passed(s), []);
  }

  /** The cleanup of the exception path, without an exit of the leader. */
  function Cleaned(s: State): State {
    s.(pc := Raised, group := Issue(Issue(s.group, TERM), KILL).(retired := true))
  }

  lemma CleansUp(limit: Option<nat>, s0: State)
    requires Reaches(limit, s0) && s0.pc == Failing(XGuard) && s0.frames == [] && MaySignal(s0.group)
    ensures Reaches(limit, Cleaned(s0))
  {
    hide Reaches;
    var s1 := s0.(pc := Failing(XTermCheck));
    Reached(limit, s0, QUIET, s1);
    var s2 := s1.(pc := Failing(XTermSend));
    Reached(limit, s1, QUIET, s2);
    var s3 := s2.(group := Issue(s0.group, TERM), pc := Failing(XKillCheck));
    Reached(limit, s2, QUIET, s3);
    var s4 := s3.(pc := Failing(XKillSend));
    Reached(limit, s3, QUIET, s4);
    var s5 := s4.(group := Issue(s3.group, KILL), pc := Failing(XMark));
    Reached(limit, s4, QUIET, s5);
    var s6 := s5.(group := s5.group.(retired := true), pc := Failing(XReap));
    Reached(limit, s5, QUIET, s6);
    Reached(limit, s6, QUIET, Cleaned(s0));
  }

  // ---- an interrupt before the timeout that it cut into ----

  /** One second later the timeout has passed. */
  lemma TimesOut(limit: Option<nat>)
    ensures Reaches(limit, ENTERED.(pc := Arming(OnTimeout, AFlag), time := Time(1.0, 1.0, 1)))
  {
    Enters(limit);
    hide Reaches;
    var s1 := ENTERED.(time := Time(1.0, 0.0, 0));
    Waited(limit, ENTERED, s1);
    var s2 := s1.(time := Time(1.0, 1.0, 1), pc := Loop(Cond1));
    Reached(limit, s1, QUIET, s2);
    var s3 := s2.(pc := Loop(Cond2));
    Reached(limit, s2, QUIET, s3);
    var s4 := s3.(pc := Loop(Cond3));
    Reached(limit, s3, QUIET, s4);
    Reached(limit, s4, QUIET, s4.(pc := Arming(OnTimeout, AFlag)));
  }

  function Timed(s: State): State {
    s.(group := Issue(s.group, TERM), alarm := Armed(s.alarm.(timedOut := true), s.time, s.time.now + 1.0, OnTimeout),
       pc := Loop(Wait))
  }

  lemma FinishesArming(limit: Option<nat>, s0: State)
    requires Reaches(limit, s0) && s0.frames == [] && s0.pc == Arming(OnTimeout, AFlag) && MaySignal(s0.group)
    ensures Reaches(limit, Timed(s0))
  {
    hide Reaches;
    var s1 := s0.(alarm := s0.alarm.(timedOut := true), pc := Arming(OnTimeout, ACheck));
    Reached(limit, s0, QUIET, s1);
    var s2 := s1.(pc := Arming(OnTimeout, ASend));
    Reached(limit, s1, QUIET, s2);
    var s3 := s2.(group := Issue(s0.group, TERM), pc := Arming(OnTimeout, AArm));
    Reached(limit, s2, QUIET, s3);
    Reached(limit, s3, QUIET, Timed(s0));
  }

  /** An interrupt taken on entering the timeout branch arms the deadline, and the timeout then arms it again. */
  lemma InterruptMayCutIn(limit: Option<nat>)
    ensures exists es :: Run(Short(limit), Init(0.0), es).alarm.log.arms == [OnInterrupt, OnTimeout]
  {
    var s0 := ENTERED.(pc := Arming(OnTimeout, AFlag), time := Time(1.0, 1.0, 1));
    TimesOut(limit);
    TakesInterrupt(limit, s0);
    FinishesArming(limit, Done(Passed(s0)));
    var end := Timed(Done(Passed(s0)));
    assert end.alarm.log.arms == [OnInterrupt, OnTimeout];
    var es :| Run(Short(limit), Init(0.0), es) == end;
  }

  // ---- several interrupts at once ----

  function Records(m: nat): seq<Frame> { seq(m, _ => Record(2)) }

  /** m handlers have passed the test, and none has recorded. */
  function Burst(m: nat): State {
    ENTERED.(frames := Records(m), alarm := ENTERED.alarm.(log := ArmLog([], false, m, 0)))
  }

  lemma {:induction false} ReachesBurst(limit: Option<nat>, m: nat)
    ensures Reaches(limit, Burst(m))
  {
    if m == 0 {
      Enters(limit);
      assert Burst(0) == ENTERED;
    } else {
      hide Reaches;
      ReachesBurst(limit, m - 1);
      Passes(limit, Burst(m - 1));
      assert Passed(Burst(m - 1)) == Burst(m);
    }
  }

  /** The k innermost of m handlers have returned. */
  lemma {:induction false} Returns(limit: Option<nat>, m: nat, k: nat)
    requires k <= m
    ensures exists s ::
              && Reaches(limit, s) && s.pc == Loop(Top) && s.frames == Records(m - k) && MaySignal(s.group)
              && |s.alarm.log.arms| == k && forall i :: 0 <= i < k ==> s.alarm.log.arms[i] == OnInterrupt
  {
    if k == 0 {
      ReachesBurst(limit, m);
      assert Burst(m).frames == Records(m - 0);
    } else {
      Returns(limit, m, k - 1);
      hide Reaches;
      var s :| Reaches(limit, s) && s.pc == Loop(Top) && s.frames == Records(m - k + 1) && MaySignal(s.group)
               && |s.alarm.log.arms| == k - 1 && forall i :: 0 <= i < k - 1 ==> s.alarm.log.arms[i] == OnInterrupt;
      assert Records(m - k + 1) == Records(m - k) + [Record(2)];
      Finishes(limit, s, Records(m - k));
      var t := Done(s);
      assert t.frames == Records(m - k);
    }
  }

  /** For every m there is a run in which m interrupts arm the deadline, one after the other. */
  lemma InterruptsMayArmOften(limit: Option<nat>, m: nat)
    ensures exists es ::
              var s := Run(Short(limit), Init(0.0), es);
              s.frames == [] && s.alarm.log.arms == seq(m, _ => OnInterrupt)
  {
    Returns(limit, m, m);
    var s :| Reaches(limit, s) && s.frames == Records(m - m) && |s.alarm.log.arms| == m
             && forall i :: 0 <= i < m ==> s.alarm.log.arms[i] == OnInterrupt;
    assert s.alarm.log.arms == seq(m, _ => OnInterrupt);
    var es :| Run(Short(limit), Init(0.0), es) == s;
  }

  // ---- interrupted runs that raise ----

  /** The next turn after an interrupt only waits. */
  lemma ReachesWait(limit: Option<nat>)
    ensures Reaches(limit, Done(Passed(ENTERED)).(time := Time(0.0, 0.0, 1), pc := Loop(Wait)))
  {
    Enters(limit);
    TakesInterrupt(limit, ENTERED);
    hide Reaches;
    var s1 := Done(Passed(ENTERED));
    var s2 := s1.(time := Time(0.0, 0.0, 1), pc := Loop(Cond1));
    Reached(limit, s1, QUIET, s2);
    var s3 := s2.(pc := Loop(Cond2));
    Reached(limit, s2, QUIET, s3);
    Reached(limit, s3, QUIET, s3.(pc := Loop(Wait)));
  }

  /** The leader exits on the TERM of the handler, with its output cut off. */
  lemma ReachesDecode(limit: Option<nat>)
    ensures exists s ::
              && Reaches(limit, s) && s.pc == Settling(Decode) && s.frames == []
              && s.alarm.interrupted == Some(2) && MaySignal(s.group)
  {
    ReachesWait(limit);
    hide Reaches;
    var s4 := Done(Passed(ENTERED)).(time := Time(0.0, 0.0, 1), pc := Loop(Wait));
    var closed := QUIET.(staysOpen := false, leaderDone := true);
    var s5 := s4.(output := s4.output.(pipesOpen := false, eof := true), pc := Loop(Observe));
    Reached(limit, s4, closed, s5);
    var s6 := s5.(output := s5.output.(leaderDone := true), pc := Settling(Decode));
    Reached(limit, s5, closed, s6);
  }

  /** Decoding may fail, and then the call raises although it received a signal that only its result would report. */
  lemma InterruptedRunMayRaise()
    ensures exists es :: var s := Run(Short(None), Init(0.0), es); s.pc.Raised? && s.alarm.interrupted == Some(2)
  {
    ReachesDecode(None);
    var s0 :| Reaches(None, s0) && s0.pc == Settling(Decode) && s0.frames == [] && s0.alarm.interrupted == Some(2)
              && MaySignal(s0.group);
    var s1 := s0.(pc := Failing(XGuard));
    Reached(None, s0, QUIET.(raises := true), s1);
    CleansUp(None, s1);
    var es :| Run(Short(None), Init(0.0), es) == Cleaned(s1);
  }

  /** One second after the interrupt the grace period is over. */
  lemma ReachesGraceEnd(limit: Option<nat>)
    ensures Reaches(limit, Done(Passed(ENTERED)).(time := Time(1.0, 1.0, 1), pc := Killing(KCheck)))
  {
    Enters(limit);
    TakesInterrupt(limit, ENTERED);
    hide Reaches;
    var s0 := Done(Passed(ENTERED));
    var s1 := s0.(time := Time(1.0, 0.0, 0));
    Waited(limit, s0, s1);
    var s2 := s1.(time := Time(1.0, 1.0, 1), pc := Loop(Cond1));
    Reached(limit, s1, QUIET, s2);
    var s3 := s2.(pc := Loop(Cond2));
    Reached(limit, s2, QUIET, s3);
    Reached(limit, s3, QUIET, s3.(pc := Killing(KCheck)));
  }

  function Killed(s: State): State {
    s.(group := Issue(s.group, KILL), pc := Loop(Wait),
       alarm := s.alarm.(grace := None, hardStop := true, killTurn := true, hardDeadline := Some(s.time.now + 1.0)))
  }

  lemma KillsGroup(limit: Option<nat>, s0: State)
    requires Reaches(limit, s0) && s0.pc == Killing(KCheck) && s0.frames == [] && MaySignal(s0.group)
    ensures Reaches(limit, Killed(s0))
  {
    hide Reaches;
    var s1 := s0.(pc := Killing(KSend));
    Reached(limit, s0, QUIET, s1);
    var s2 := s1.(group := Issue(s1.group, KILL), pc := Killing(KClear));
    Reached(limit, s1, QUIET, s2);
    var s3 := s2.(alarm := s2.alarm.(grace := None), pc := Killing(KFlag));
    Reached(limit, s2, QUIET, s3);
    var s4 := s3.(alarm := s3.alarm.(hardStop := true, killTurn := true), pc := Killing(KDeadline));
    Reached(limit, s3, QUIET, s4);
    Reached(limit, s4, QUIET, Killed(s0));
  }

  lemma ReachesOverdue(limit: Option<nat>, s0: State)
    requires Reaches(limit, s0) && s0.pc == Loop(Wait) && s0.frames == [] && s0.time == Time(1.0, 1.0, 1)
    requires s0.alarm.grace.None? && s0.alarm.hardStop && s0.alarm.hardDeadline == Some(2.0) && !s0.output.leaderDone
    ensures exists s ::
              && Reaches(limit, s) && s.pc == Failing(XGuard) && s.frames == []
              && s.alarm.interrupted == s0.alarm.interrupted && s.group == s0.group
  {
    hide Reaches;
    var s1 := s0.(output := WaitForOutput(Short(limit), s0.output, QUIET), pc := Loop(Observe));
    Reached(limit, s0, QUIET, s1);
    var s2 := s1.(pc := Loop(Drain));
    Reached(limit, s1, QUIET, s2);
    var s3 := s2.(output := s2.output.(pipesOpen := false), pc := Loop(Overdue));
    Reached(limit, s2, QUIET, s3);
    var s4 := s3.(time := Time(2.0, 1.0, 1));
    Waited(limit, s3, s4);
    Reached(limit, s4, QUIET, s4.(alarm := s4.alarm.(past := s4.alarm.past.(gaveUp := true)), pc := Failing(XGuard)));
  }

  /** The leader does not exit after the kill: one second later the call gives up, whatever the byte limit. */
  lemma InterruptedRunMayGiveUp(limit: Option<nat>)
    ensures exists es :: var s := Run(Short(limit), Init(0.0), es); s.pc.Raised? && s.alarm.interrupted == Some(2)
  {
    var s0 := Done(Passed(ENTERED)).(time := Time(1.0, 1.0, 1), pc := Killing(KCheck));
    ReachesGraceEnd(limit);
    KillsGroup(limit, s0);
    ReachesOverdue(limit, Killed(s0));
    var s1 :| Reaches(limit, s1) && s1.pc == Failing(XGuard) && s1.frames == [] && s1.alarm.interrupted == Some(2)
              && s1.group == Killed(s0).group;
    CleansUp(limit, s1);
    var es :| Run(Short(limit), Init(0.0), es) == Cleaned(s1);
  }
}
