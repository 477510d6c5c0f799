/**
 * tools/process_supervisor.py: what the escalation of run_process_batch does to one child group.
 * It signals when it has to, never without a reason, and never before its time.
 */
module BatchEscalation {
  import opened Wrappers
  import opened ProcessBatch
  import opened BatchClock
  import opened BatchSettlement
  import opened BatchCustody

  /** Child k has been sent this signal. */
  ghost predicate SentTo(sent: seq<Sent>, k: nat, signum: Signum) {
    exists i :: 0 <= i < |sent| && sent[i].child == k && sent[i].signum == signum
  }

  ghost predicate Untouched(sent: seq<Sent>, k: nat) { !SentTo(sent, k, TERM) && !SentTo(sent, k, KILL) }

  predicate KillFrame(f: Frame) { f.HKill? || f.HKillIssue? }

  ghost predicate Killing(frames: seq<Frame>) {
    exists i :: 0 <= i < |frames| && KillFrame(frames[i])
  }

  /** Launching or polling, with child k not yet given to its retirement. */
  predicate Underway(s: State, k: nat) {
    k < |s.children| && !s.children[k].retired && (s.pc.Launch? || Polling(s.pc)) && !AtRetirement(s.pc, k)
  }

  predicate AtRetirement(pc: Pc, k: nat) {
    pc.Poll? && pc.child == k && (pc.poll.PMark? || pc.poll.PReap? || pc.poll.PRemove?)
  }

  predicate AfterKill(pc: Pc, k: nat) { pc.Poll? && pc.child == k && (pc.poll.KClear? || pc.poll.KHard?) }

  predicate AboutToTerm(pc: Pc, k: nat) {
    pc.Poll? && pc.child == k && (pc.poll.TFlag? || pc.poll.TGuard? || pc.poll.TIssue?)
  }

  ghost predicate Told(s: State, k: nat, a: Clock, again: bool) {
    && (s.pc.Launch? ==> a.hard.None? && !a.timedOut)
    && (Polling(s.pc) && k in s.pending ==> k < |s.children| && s.children[k].spawned)
    && (s.pc.Poll? && s.pc.child == k ==> k in s.pending)
    && (k < |s.children| && Retiring(s.pc, k) ==> s.children[k].retired)
    && (Underway(s, k) && (a.hard.Some? || AfterKill(s.pc, k)) ==> SentTo(s.sent, k, KILL))
    && (Underway(s, k) && a.timedOut && !AboutToTerm(s.pc, k) ==> SentTo(s.sent, k, TERM))
    && (Underway(s, k) && !Untouched(s.sent, k) ==> a.timedOut || s.signalled)
    && (Underway(s, k) && SentTo(s.sent, k, KILL) ==> a.hard.Some? || AfterKill(s.pc, k) || again)
    && (Killing(s.frames) ==> again) && (again ==> s.signalled)
    && (s.pc.Launch? && (s.pc.launch.LMark? || s.pc.launch.LGuard? || s.pc.launch.LIssue? || s.pc.launch.LArm?) ==>
          s.signalled)
    && (!s.signalled ==> forall i :: 0 <= i < |s.frames| ==> s.frames[i].HBegin? || s.frames[i].HRecord?)
    && (ArmingIt(s.pc, k) && !s.pc.poll.TFlag? ==> a.timedOut)
    && (KillingIt(s.pc, k) || a.hard.Some? || a.grace.Some? ==> a.timedOut || s.signalled)
  }

  ghost predicate ToldOf(t: Timed, k: nat) { k < |t.clocks| == |t.base.children|
                                            && Told(t.base, k, t.clocks[k], t.again) }

  lemma SentToGrows(sent: seq<Sent>, e: Sent, k: nat, signum: Signum)
    ensures SentTo(sent + [e], k, signum) <==> SentTo(sent, k, signum) || (e.child == k && e.signum == signum)
  {
    var all := sent + [e];
    assert all[|sent|] == e;
    assert forall i :: 0 <= i < |sent| ==> all[i] == sent[i];
    if SentTo(sent, k, signum) {
      var i :| 0 <= i < |sent| && sent[i].child == k && sent[i].signum == signum;
      assert all[i].child == k && all[i].signum == signum;
    }
  }

  /** A signal to child i, as child k sees it. */
  lemma Issued(s: State, i: nat, k: nat)
    requires i < |s.children|
    ensures var t, u := Issue(s, i, TERM), Issue(s, i, KILL);
            && (SentTo(t.sent, k, TERM) <==> SentTo(s.sent, k, TERM) || i == k)
            && (SentTo(t.sent, k, KILL) <==> SentTo(s.sent, k, KILL))
            && (SentTo(u.sent, k, KILL) <==> SentTo(s.sent, k, KILL) || i == k)
            && (SentTo(u.sent, k, TERM) <==> SentTo(s.sent, k, TERM))
  {
    var held := s.children[i].spawned && !s.children[i].reaped;
    SentToGrows(s.sent, Sent(i, TERM, held), k, TERM);
    SentToGrows(s.sent, Sent(i, TERM, held), k, KILL);
    SentToGrows(s.sent, Sent(i, KILL, held), k, TERM);
    SentToGrows(s.sent, Sent(i, KILL, held), k, KILL);
  }

  lemma NoneKilling()
    ensures !Killing([])
  {}

  lemma LaunchTells(c: Config, t: Timed, k: nat, i: nat, p: LaunchPc)
    requires ToldOf(t, k) && t.base.pc == Launch(i, p) && t.base.frames == []
    ensures ToldOf(MainClock(c, t).(base := LaunchStep(t.base, i, p)), k)
  {
    hide SentTo, Killing;
    NoneKilling();
    if i < |t.base.children| { Issued(t.base, i, k); }
  }

  lemma TurnTells(c: Config, t: Timed, k: nat, ch: Choice)
    requires ToldOf(t, k) && t.base.frames == []
    ensures t.base.pc.Turn? ==> ToldOf(MainClock(c, t).(base := TurnStep(t.base)), k)
    ensures t.base.pc.Pick? && t.base.pc.todo <= t.base.pending ==>
              ToldOf(MainClock(c, t).(base := PickStep(t.base, t.base.pc.todo, ch)), k)
  {
    hide SentTo, Killing;
    NoneKilling();
  }

  lemma VisitTells(c: Config, t: Timed, k: nat, p: PollPc, todo: set<nat>, ch: Choice)
    requires ToldOf(t, k) && t.base.frames == [] && t.base.pc == Poll(k, p, todo)
    ensures ToldOf(MainClock(c, t).(base := PollStep(t.base, k, p, todo, Timely(t, ch))), k)
  {
    hide SentTo, Killing;
    NoneKilling();
    Issued(t.base, k, k);
  }

  lemma OtherTells(c: Config, t: Timed, k: nat, i: nat, p: PollPc, todo: set<nat>, ch: Choice)
    requires ToldOf(t, k) && t.base.frames == [] && t.base.pc == Poll(i, p, todo) && i != k
    ensures ToldOf(MainClock(c, t).(base := PollStep(t.base, i, p, todo, Timely(t, ch))), k)
  {
    hide SentTo, Killing, PollClock, Timely, MaySignal;
    NoneKilling();
    if i < |t.base.children| { Issued(t.base, i, k); }
  }

  /** Off the loop nothing is claimed any more. */
  lemma OffTells(t: Timed, k: nat, b: State)
    requires ToldOf(t, k) && |b.children| == |t.base.children| && b.signalled == t.base.signalled
    requires b.frames == [] || b.frames == t.base.frames
    requires b.pc.Cleanup? || b.pc.Final? || Over(b.pc)
    ensures ToldOf(t.(base := b), k)
  {
    NoneKilling();
  }

  /** The children still to be visited in a turn are pending. */
  ghost predicate TodoPending(pc: Pc, pending: set<nat>) {
    && (pc.Pick? ==> pc.todo <= pending)
    && (pc.Poll? ==> pc.todo <= pending - {pc.child})
  }

  lemma MainTells(c: Config, may: bool, t: Timed, k: nat, ch: Choice)
    requires ToldOf(t, k) && TodoPending(t.base.pc, t.base.pending)
    ensures ToldOf(TimedStep(c, may, t, ch), k)
  {
    hide ToldOf, LaunchStep, TurnStep, PickStep, PollStep, CleanStep, FinalStep, MainClock, Timely;
    TimelyRaises(t, ch);
    SizesOf(t, k);
    var s := t.base;
    if s.frames != [] || Over(s.pc) {
    } else if ch.raises && CanRaise(s, may) {
      OffTells(t, k, Raise(s));
    } else {
      match s.pc
      case Launch(i, p) => LaunchTells(c, t, k, i, p);
      case Turn => TurnTells(c, t, k, Timely(t, ch));
      case Pick(_) => TurnTells(c, t, k, Timely(t, ch));
      case Poll(i, p, todo) =>
        if i == k { VisitTells(c, t, k, p, todo, ch); } else { OtherTells(c, t, k, i, p, todo, ch); }
      case _ =>
        LaterSteps(s, Timely(t, ch), may);
        LaterTells(c, may, t, k, ch);
    }
  }

  lemma LaterTells(c: Config, may: bool, t: Timed, k: nat, ch: Choice)
    requires ToldOf(t, k) && t.base.frames == [] && (t.base.pc.Cleanup? || t.base.pc.Final?)
    requires !(ch.raises && CanRaise(t.base, may))
    ensures ToldOf(TimedStep(c, may, t, ch), k)
  {
    hide MainStep;
    LaterSteps(t.base, Timely(t, ch), may);
    OffTells(t, k, MainStep(t.base, Timely(t, ch), may));
  }

  lemma SizesOf(t: Timed, k: nat)
    requires ToldOf(t, k)
    ensures k < |t.clocks| == |t.base.children|
  {}

  // ---- the handler ----

  lemma KillingTop(below: seq<Frame>, top: Frame)
    ensures Killing(below + [top]) <==> Killing(below) || KillFrame(top)
  {
    var all := below + [top];
    assert all[|below|] == top;
    assert forall i :: 0 <= i < |below| ==> all[i] == below[i];
    if Killing(below) {
      var i :| 0 <= i < |below| && KillFrame(below[i]);
      assert KillFrame(all[i]);
    }
  }

  lemma CancelTells(c: Config, t: Timed, k: nat, top: Frame, below: seq<Frame>)
    requires ToldOf(t, k) && t.base.frames == below + [top]
    ensures ToldOf(HandlerClock(c, t, top).(base := CancelStep(t.base, top, below)), k)
  {
    hide SentTo, Killing;
    var s := t.base;
    var b := CancelStep(s, top, below);
    assert s.frames[|below|] == top;
    assert forall i :: 0 <= i < |below| ==> s.frames[i] == below[i];
    KillingTop(below, top);
    if b.frames != below && b.frames != s.frames {
      var f := b.frames[|below|];
      assert b.frames == below + [f];
      KillingTop(below, f);
    }
    if (top.HKillIssue? || top.HIssue?) && top.child < |s.children| { Issued(s, top.child, k); }
  }

  lemma NextTells(c: Config, may: bool, t: Timed, k: nat, e: TimedEvent)
    requires ToldOf(t, k) && TodoPending(t.base.pc, t.base.pending)
    ensures ToldOf(TimedNext(c, may, t, e), k)
  {
    match e
    case Do(Step(ch)) => MainTells(c, may, t, k, ch);
    case Do(Interrupt) => InterruptTells(may, t, k);
    case Do(HandlerStep(raises)) => HandlerTells(c, may, t, k, raises);
    case Tick(dt) =>
  }

  lemma InterruptTells(may: bool, t: Timed, k: nat)
    requires ToldOf(t, k)
    ensures ToldOf(t.(base := Next(may, t.base, Interrupt)), k)
  {
    hide SentTo, Killing;
    KillingTop(t.base.frames, HBegin);
  }

  lemma HandlerTells(c: Config, may: bool, t: Timed, k: nat, raises: bool)
    requires ToldOf(t, k)
    ensures ToldOf(TimedHandler(c, may, t, raises), k)
  {
    hide ToldOf, CancelStep, HandlerClock;
    SizesOf(t, k);
    var s := t.base;
    if s.frames != [] && !Over(s.pc) {
      if raises && CanRaise(s, may) {
        OffTells(t, k, Raise(s));
      } else {
        var n := |s.frames| - 1;
        assert s.frames == s.frames[..n] + [s.frames[n]];
        CancelTells(c, t, k, s.frames[n], s.frames[..n]);
      }
    }
  }

  lemma TodoPoll(s: State, i: nat, p: PollPc, todo: set<nat>, ch: Choice)
    requires todo <= s.pending - {i} && s.pc == Poll(i, p, todo)
    ensures var b := PollStep(s, i, p, todo, ch); TodoPending(b.pc, b.pending)
  {
    hide MaySignal;
  }

  lemma TodoMain(s: State, ch: Choice, may: bool)
    requires TodoPending(s.pc, s.pending)
    ensures var b := MainStep(s, ch, may); TodoPending(b.pc, b.pending)
  {
    hide MaySignal, Spawned, PollStep;
    if s.pc.Poll? { TodoPoll(s, s.pc.child, s.pc.poll, s.pc.todo, ch); }
  }

  lemma TodoHandler(s: State, raises: bool, may: bool)
    requires TodoPending(s.pc, s.pending)
    ensures var b := HandlerMove(s, raises, may); TodoPending(b.pc, b.pending)
  {
    hide MaySignal;
  }

  lemma TodoStays(c: Config, may: bool, t: Timed, e: TimedEvent)
    requires TodoPending(t.base.pc, t.base.pending)
    ensures var u := TimedNext(c, may, t, e); TodoPending(u.base.pc, u.base.pending)
  {
    hide MainStep, HandlerMove, Timely, TimedNext;
    PlainStep(c, may, t, e);
    match e
    case Do(Step(ch)) => TodoMain(t.base, Timely(t, ch), may);
    case Do(HandlerStep(raises)) => TodoHandler(t.base, raises, may);
    case _ =>
  }

  lemma {:induction false} RunTells(c: Config, may: bool, clock: real, es: seq<TimedEvent>, k: nat)
    requires k < |c.timeouts|
    ensures var t := TimedRun(c, may, TimedInit(c, clock), es); ToldOf(t, k) && TodoPending(t.base.pc, t.base.pending)
  {
    hide TimedNext, ToldOf, TodoPending;
    if es == [] {
      InitTells(c, clock, k);
    } else {
      var t := TimedRun(c, may, TimedInit(c, clock), es[..|es| - 1]);
      RunTells(c, may, clock, es[..|es| - 1], k);
      NextTells(c, may, t, k, es[|es| - 1]);
      TodoStays(c, may, t, es[|es| - 1]);
    }
  }

  lemma InitTells(c: Config, clock: real, k: nat)
    requires k < |c.timeouts|
    ensures var t := TimedInit(c, clock); ToldOf(t, k) && TodoPending(t.base.pc, t.base.pending)
  {}

  /**
   * A child group is signalled exactly when its run has escalated. In every run, for a child that
   * is not at its retirement: a hard deadline means that KILL was sent; a timeout means that TERM
   * was sent, once the statement that sends it is past. Conversely nothing is sent to a child that
   * has not timed out before a signal is recorded, and no KILL without a hard deadline or a
   * further signal.
   */
  lemma BatchSignals(c: Config, may: bool, clock: real, es: seq<TimedEvent>, k: nat)
    requires k < |c.timeouts|
    ensures var t := TimedRun(c, may, TimedInit(c, clock), es); var s := t.base;
            && k < |t.clocks| == |s.children|
            && (Underway(s, k) ==>
                  && (t.clocks[k].hard.Some? ==> SentTo(s.sent, k, KILL))
                  && (t.clocks[k].timedOut && !AboutToTerm(s.pc, k) ==> SentTo(s.sent, k, TERM))
                  && (!Untouched(s.sent, k) ==> t.clocks[k].timedOut || s.signalled)
                  && (SentTo(s.sent, k, KILL) ==> t.clocks[k].hard.Some? || AfterKill(s.pc, k) || t.again))
  {
    hide TimedRun, SentTo;
    RunTells(c, may, clock, es, k);
  }

  // ---- a further signal kills everybody ----

  /** A killing handler has killed all children before its own. */
  ghost predicate KilledSoFar(f: Frame, s: State) {
    KillFrame(f) ==> forall k :: 0 <= k < f.child && MaySignal(s, k) ==> SentTo(s.sent, k, KILL)
  }

  ghost predicate Kills(s: State) {
    forall i :: 0 <= i < |s.frames| ==> KilledSoFar(s.frames[i], s)
  }

  /** A handler's statement loses no signal and leaves it open who can be signalled. */
  lemma CancelKeepsKills(s: State, top: Frame, below: seq<Frame>, f: Frame)
    requires KilledSoFar(f, s)
    ensures KilledSoFar(f, CancelStep(s, top, below))
  {
    var t := CancelStep(s, top, below);
    assert forall k :: MaySignal(t, k) <==> MaySignal(s, k);
    if KillFrame(f) {
      forall k | 0 <= k < f.child && MaySignal(t, k) ensures SentTo(t.sent, k, KILL) {
        assert SentTo(s.sent, k, KILL);
        var i :| 0 <= i < |s.sent| && s.sent[i].child == k && s.sent[i].signum == KILL;
        assert t.sent[i] == s.sent[i];
      }
    }
  }

  /** The killing handler steps on only past a child that it has killed or that cannot be signalled. */
  lemma KillerSteps(s: State, top: Frame, below: seq<Frame>)
    requires KilledSoFar(top, s)
    ensures var t := CancelStep(s, top, below);
            t == s || t.frames == below || exists f :: t.frames == below + [f] && KilledSoFar(f, t)
  {
    var t := CancelStep(s, top, below);
    CancelKeepsKills(s, top, below, top);
    if top.HKillIssue? && top.child < |s.children| {
      Issued(s, top.child, top.child);
      assert KilledSoFar(HKill(top.child + 1), t);
    } else if top.HKill? && top.child < |s.children| {
      assert KilledSoFar(if MaySignal(s, top.child) then HKillIssue(top.child) else HKill(top.child + 1), t);
    } else if t != s && t.frames != below {
      var f := t.frames[|below|];
      assert t.frames == below + [f] && KilledSoFar(f, t);
    }
  }

  lemma CancelKills(s: State, top: Frame, below: seq<Frame>)
    requires Kills(s) && s.frames == below + [top]
    ensures Kills(CancelStep(s, top, below))
  {
    hide KilledSoFar, CancelStep;
    var t := CancelStep(s, top, below);
    assert s.frames[|below|] == top;
    forall i | 0 <= i < |below| ensures KilledSoFar(below[i], t) {
      assert s.frames[i] == below[i];
      CancelKeepsKills(s, top, below, below[i]);
    }
    KillerSteps(s, top, below);
  }

  lemma NextKills(may: bool, s: State, e: Event)
    requires Kills(s)
    ensures Kills(Next(may, s, e))
  {
    hide MainStep, CancelStep;
    match e
    case Step(ch) => MainAndHandlers(s, ch, may);
    case Interrupt =>
      var t := s.(frames := s.frames + [HBegin]);
      forall i | 0 <= i < |t.frames| ensures KilledSoFar(t.frames[i], t) {
        if i < |s.frames| { assert KilledSoFar(s.frames[i], s); MoreFrames(s, t, s.frames[i]); }
      }
    case HandlerStep(raises) =>
      if s.frames != [] {
        var n := |s.frames| - 1;
        assert s.frames == s.frames[..n] + [s.frames[n]];
        CancelKills(s, s.frames[n], s.frames[..n]);
      }
  }

  lemma MoreFrames(s: State, t: State, f: Frame)
    requires KilledSoFar(f, s) && t == s.(frames := t.frames)
    ensures KilledSoFar(f, t)
  {}

  lemma {:induction false} RunKills(may: bool, n: nat, es: seq<Event>)
    ensures Kills(Run(may, Init(n), es))
  {
    hide Next;
    if es != [] {
      RunKills(may, n, es[..|es| - 1]);
      NextKills(may, Run(may, Init(n), es[..|es| - 1]), es[|es| - 1]);
    }
  }

  /** The killing handler is about to return. */
  predicate DoneKilling(f: Frame, s: State) { f.HKill? && f.child >= |s.children| }

  /** A handler that found a signal recorded returns only when every group that can be signalled was sent KILL. */
  lemma AgainKillsAll(may: bool, n: nat, es: seq<Event>, k: nat)
    ensures var s := Run(may, Init(n), es);
            s.frames != [] && DoneKilling(s.frames[|s.frames| - 1], s) && MaySignal(s, k) ==> SentTo(s.sent, k, KILL)
  {
    RunKills(may, n, es);
    var s := Run(may, Init(n), es);
    assert s.frames != [] ==> KilledSoFar(s.frames[|s.frames| - 1], s);
  }

  // ---- the exception path ----

  /** The cleanup loop has terminated, and then killed, the child it is at. */
  ghost predicate CleanedSoFar(s: State) {
    s.pc.Cleanup? && MaySignal(s, s.pc.child) ==>
      && (s.pc.clean.CKillGuard? || s.pc.clean.CKillIssue? ==> SentTo(s.sent, s.pc.child, TERM))
      && (s.pc.clean.CMark? ==> SentTo(s.sent, s.pc.child, TERM) && SentTo(s.sent, s.pc.child, KILL))
  }

  lemma CleanTells(s: State, ch: Choice, may: bool)
    requires CleanedSoFar(s)
    ensures CleanedSoFar(MainStep(s, ch, may))
  {
    hide SentTo, LaunchStep, PollStep;
    if s.pc.Cleanup? && s.pc.child < |s.children| { Issued(s, s.pc.child, s.pc.child); }
    if s.pc.Launch? { LaunchStays(s, s.pc.child, s.pc.launch); }
    if s.pc.Poll? { PollStays(s, s.pc.child, s.pc.poll, s.pc.todo, ch); }
  }

  lemma LaunchStays(s: State, i: nat, p: LaunchPc)
    ensures !LaunchStep(s, i, p).pc.Cleanup? || s.pc.Cleanup?
  {}

  /** Only an exception leads into the cleanup loop, at its start. */
  lemma PollStays(s: State, i: nat, p: PollPc, todo: set<nat>, ch: Choice)
    requires s.pc.Poll?
    ensures var b := PollStep(s, i, p, todo, ch); b.pc.Cleanup? ==> b.pc == Cleanup(0, CTermGuard)
  {}

  lemma CancelCleans(s: State, top: Frame, below: seq<Frame>)
    requires CleanedSoFar(s)
    ensures CleanedSoFar(CancelStep(s, top, below))
  {
    hide SentTo;
    if (top.HKillIssue? || top.HIssue?) && top.child < |s.children| && s.pc.Cleanup? {
      Issued(s, top.child, s.pc.child);
    }
  }

  lemma {:induction false} RunCleans(may: bool, n: nat, es: seq<Event>)
    ensures CleanedSoFar(Run(may, Init(n), es))
  {
    hide MainStep, CancelStep;
    if es != [] {
      var s, e := Run(may, Init(n), es[..|es| - 1]), es[|es| - 1];
      RunCleans(may, n, es[..|es| - 1]);
      match e
      case Step(ch) => CleanTells(s, ch, may);
      case HandlerStep(_) =>
        if s.frames != [] { CancelCleans(s, s.frames[|s.frames| - 1], s.frames[..|s.frames| - 1]); }
      case Interrupt =>
    }
  }

  /** In every run the cleanup loop marks a group as retired only after it was sent TERM and KILL. */
  lemma CleanupSignalsAll(may: bool, n: nat, es: seq<Event>)
    ensures var s := Run(may, Init(n), es);
            s.pc.Cleanup? && s.pc.clean.CMark? && MaySignal(s, s.pc.child) ==>
              SentTo(s.sent, s.pc.child, TERM) && SentTo(s.sent, s.pc.child, KILL)
  {
    hide Run, SentTo;
    RunCleans(may, n, es);
  }

  // ---- never before its time ----

  /** The grace deadline, the kill and the hard deadline of child k keep their distances from its first arm. */
  ghost predicate Unhurried(c: Config, t: Timed, k: nat) {
    k < |t.clocks| == |t.base.children| == |c.timeouts| &&
    var s, a := t.base, t.clocks[k]; var first := a.since;
    && t.now <= t.clock && (first.Some? ==> first.value <= t.now)
    && (a.grace.Some? ==> first.Some? && first.value + c.grace <= a.grace.value)
    && (Polling(s.pc) && (a.hard.Some? || KillingIt(s.pc, k)) ==> first.Some? && first.value + c.grace <= t.now)
    && (a.hard.Some? ==> first.Some? && first.value + c.grace + c.reap <= a.hard.value)
    && (s.pc.Launch? ==> a.hard.None? && !a.timedOut)
    && (Polling(s.pc) && (a.timedOut || ArmingIt(s.pc, k)) ==> a.deadline <= t.now)
    && (ToArm(s.frames, k) ==> t.now <= t.signalAt)
    && (HasDeadline(s, k) ==> a.deadline == a.started + c.timeouts[k])
  }

  /** The child has been started and given its deadline. */
  predicate HasDeadline(s: State, k: nat)
    requires k < |s.children|
  {
    || (s.pc.Launch? && s.children[k].spawned && !(s.pc.child == k && s.pc.launch.LSubmit?))
    || (Polling(s.pc) && k in s.pending)
  }

  lemma LaunchUnhurried(c: Config, t: Timed, k: nat, i: nat, p: LaunchPc)
    requires ValidConfig(c) && Unhurried(c, t, k) && t.base.pc == Launch(i, p) && t.base.frames == []
    ensures Unhurried(c, MainClock(c, t).(base := LaunchStep(t.base, i, p)), k)
  {
    hide ToArm, MaySignal;
    NoneToArm(k);
  }

  lemma TurnUnhurried(c: Config, t: Timed, k: nat, ch: Choice)
    requires ValidConfig(c) && Unhurried(c, t, k) && t.base.frames == []
    ensures t.base.pc.Turn? ==> Unhurried(c, MainClock(c, t).(base := TurnStep(t.base)), k)
    ensures t.base.pc.Pick? ==> Unhurried(c, MainClock(c, t).(base := PickStep(t.base, t.base.pc.todo, ch)), k)
  {
    hide ToArm, MaySignal;
    NoneToArm(k);
  }

  lemma VisitUnhurried(c: Config, t: Timed, k: nat, p: PollPc, todo: set<nat>, ch: Choice)
    requires ValidConfig(c) && Unhurried(c, t, k) && t.base.frames == [] && t.base.pc == Poll(k, p, todo)
    ensures Unhurried(c, MainClock(c, t).(base := PollStep(t.base, k, p, todo, Timely(t, ch))), k)
  {
    hide ToArm, MaySignal;
    NoneToArm(k);
  }

  lemma OtherUnhurried(c: Config, t: Timed, k: nat, i: nat, p: PollPc, todo: set<nat>, ch: Choice)
    requires ValidConfig(c) && Unhurried(c, t, k) && t.base.frames == [] && t.base.pc == Poll(i, p, todo) && i != k
    ensures Unhurried(c, MainClock(c, t).(base := PollStep(t.base, i, p, todo, Timely(t, ch))), k)
  {
    hide ToArm, MaySignal, PollClock, Timely;
    NoneToArm(k);
  }

  lemma OffUnhurried(c: Config, t: Timed, k: nat, b: State)
    requires Unhurried(c, t, k) && |b.children| == |t.base.children| && (b.frames == [] || b.frames == t.base.frames)
    requires b.pc.Cleanup? || b.pc.Final? || Over(b.pc)
    ensures Unhurried(c, t.(base := b), k)
  {
    NoneToArm(k);
  }

  lemma LaterUnhurried(c: Config, may: bool, t: Timed, k: nat, ch: Choice)
    requires Unhurried(c, t, k) && t.base.frames == [] && (t.base.pc.Cleanup? || t.base.pc.Final?)
    requires !(ch.raises && CanRaise(t.base, may))
    ensures Unhurried(c, TimedStep(c, may, t, ch), k)
  {
    hide MainStep, Unhurried;
    LaterSteps(t.base, Timely(t, ch), may);
    OffUnhurried(c, t, k, MainStep(t.base, Timely(t, ch), may));
  }

  lemma MainUnhurried(c: Config, may: bool, t: Timed, k: nat, ch: Choice)
    requires ValidConfig(c) && Unhurried(c, t, k)
    ensures Unhurried(c, TimedStep(c, may, t, ch), k)
  {
    hide Unhurried, LaunchStep, TurnStep, PickStep, PollStep, CleanStep, FinalStep, MainClock, Timely;
    TimelyRaises(t, ch);
    var s := t.base;
    if s.frames != [] || Over(s.pc) {
    } else if ch.raises && CanRaise(s, may) {
      OffUnhurried(c, t, k, Raise(s));
    } else {
      match s.pc
      case Launch(i, p) => LaunchUnhurried(c, t, k, i, p);
      case Turn => TurnUnhurried(c, t, k, Timely(t, ch));
      case Pick(_) => TurnUnhurried(c, t, k, Timely(t, ch));
      case Poll(i, p, todo) =>
        if i == k { VisitUnhurried(c, t, k, p, todo, ch); } else { OtherUnhurried(c, t, k, i, p, todo, ch); }
      case _ => LaterUnhurried(c, may, t, k, ch);
    }
  }

  /** A statement of a handler that does not arm child k. */
  lemma SameUnhurried(c: Config, t: Timed, k: nat, b: State)
    requires Unhurried(c, t, k) && b.pc == t.base.pc && b.pending == t.base.pending && |b.children| == |t.base.children|
    requires b.children[k].spawned == t.base.children[k].spawned && (ToArm(b.frames, k) ==> t.now <= t.signalAt)
    ensures Unhurried(c, t.(base := b), k)
  {
    hide ToArm;
  }

  lemma CancelKeepsChildren(s: State, top: Frame, below: seq<Frame>, k: nat)
    requires k < |s.children| && s.frames == below + [top]
    ensures var b := CancelStep(s, top, below);
            && b.pc == s.pc && b.pending == s.pending && |b.children| == |s.children|
            && b.children[k].spawned == s.children[k].spawned
            && (ToArm(b.frames, k) ==> ToArm(s.frames, k) || top.HRecord?)
  {
    hide ToArm;
    var b := CancelStep(s, top, below);
    ToArmTop(below, top, k);
    if b.frames != below && b.frames != s.frames {
      var f := b.frames[|below|];
      assert b.frames == below + [f];
      ToArmTop(below, f, k);
    }
  }

  lemma CancelUnhurried(c: Config, t: Timed, k: nat, top: Frame, below: seq<Frame>)
    requires ValidConfig(c) && Unhurried(c, t, k) && t.base.frames == below + [top]
    ensures Unhurried(c, HandlerClock(c, t, top).(base := CancelStep(t.base, top, below)), k)
  {
    hide ToArm, CancelStep, HandlerClock;
    CancelKeepsChildren(t.base, top, below, k);
    ToArmTop(below, top, k);
    ClockUnhurried(c, t, k, top);
    SameUnhurried(c, HandlerClock(c, t, top), k, CancelStep(t.base, top, below));
  }

  /** Recording a signal reads the clock, and arming a child counts from that reading. */
  lemma ClockUnhurried(c: Config, t: Timed, k: nat, top: Frame)
    requires ValidConfig(c) && Unhurried(c, t, k) && (top == HArm(k) ==> t.now <= t.signalAt)
    ensures Unhurried(c, HandlerClock(c, t, top), k)
    ensures var u := HandlerClock(c, t, top);
            u.base == t.base && u.now == t.now && (top.HRecord? ==> u.now <= u.signalAt)
            && (!top.HRecord? ==> u.signalAt == t.signalAt)
  {
    hide ToArm;
  }

  lemma NextUnhurried(c: Config, may: bool, t: Timed, k: nat, e: TimedEvent)
    requires ValidConfig(c) && Unhurried(c, t, k)
    ensures Unhurried(c, TimedNext(c, may, t, e), k)
  {
    hide MainStep, CancelStep, HandlerClock, MainClock, ToArm;
    match e
    case Do(Step(ch)) => MainUnhurried(c, may, t, k, ch);
    case Do(Interrupt) => ToArmTop(t.base.frames, HBegin, k);
    case Do(HandlerStep(raises)) =>
      if !Over(t.base.pc) && raises && CanRaise(t.base, may) {
        OffUnhurried(c, t, k, Raise(t.base));
      } else if t.base.frames != [] {
        var n := |t.base.frames| - 1;
        assert t.base.frames == t.base.frames[..n] + [t.base.frames[n]];
        CancelUnhurried(c, t, k, t.base.frames[n], t.base.frames[..n]);
      }
    case Tick(dt) =>
  }

  lemma {:induction false} RunUnhurried(c: Config, may: bool, clock: real, es: seq<TimedEvent>, k: nat)
    requires ValidConfig(c) && k < |c.timeouts|
    ensures Unhurried(c, TimedRun(c, may, TimedInit(c, clock), es), k)
  {
    hide TimedNext, Unhurried;
    if es == [] {
      InitUnhurried(c, clock, k);
    } else {
      RunUnhurried(c, may, clock, es[..|es| - 1], k);
      NextUnhurried(c, may, TimedRun(c, may, TimedInit(c, clock), es[..|es| - 1]), k, es[|es| - 1]);
    }
  }

  lemma InitUnhurried(c: Config, clock: real, k: nat)
    requires k < |c.timeouts|
    ensures Unhurried(c, TimedInit(c, clock), k)
  {}

  /**
   * The escalation of a batch takes its time. In every run, for a supervised child: its deadline is
   * its own start plus its own timeout; a timeout is declared at that deadline and not before; and
   * the group is not killed for good before a full grace period has passed since the turn that
   * first armed its grace deadline.
   */
  lemma BatchTakesTime(c: Config, may: bool, clock: real, es: seq<TimedEvent>, k: nat)
    requires ValidConfig(c) && k < |c.timeouts|
    ensures var t := TimedRun(c, may, TimedInit(c, clock), es);
            && k < |t.clocks|
            && (Polling(t.base.pc) && k in t.base.pending ==>
                  var a := t.clocks[k];
                  && a.deadline == a.started + c.timeouts[k]
                  && (a.timedOut ==> a.deadline <= t.now)
                  && (a.hard.Some? ==> a.since.Some? && a.since.value + c.grace <= t.now
                                         && a.since.value + c.grace + c.reap <= a.hard.value))
  {
    hide TimedRun;
    RunUnhurried(c, may, clock, es, k);
  }
}
