/** tools/process_supervisor.py: no child of a batch stays in the polling loop beyond a fixed time. */
module BatchSettlement {
  import opened Wrappers
  import opened ProcessBatch
  import opened BatchClock

  // ---- latest times, from the time d at which a child's timeout can be noticed ----

  function FirstGrace(c: Config, d: real): real { d + c.longest + c.grace }
  function FirstHard(c: Config, d: real): real { FirstGrace(c, d) + c.longest + c.reap }
  function LastSignal(c: Config, d: real): real { FirstHard(c, d) + 2.0 * c.longest }
  function SecondGrace(c: Config, d: real): real { LastSignal(c, d) + c.grace }
  function SecondHard(c: Config, d: real): real { SecondGrace(c, d) + c.longest + c.reap }

  function Max(x: real, y: real): real { if x >= y then x else y }

  /** A child's own timeout, or the start of the loop if that is later. */
  function Noticeable(a: Clock, entered: real): real { Max(a.deadline, entered) }

  // ---- where the program is with respect to child k ----

  /** The child is supervised and its group is not retired. */
  predicate Active(s: State, k: nat) { Polling(s.pc) && k in s.pending && k < |s.children| && !s.children[k].retired }

  /** This turn has not yet compared the time with the child's deadlines. */
  predicate Unseen(pc: Pc, k: nat) {
    (pc.Pick? && k in pc.todo) || (pc.Poll? && if pc.child == k then pc.poll.PDecide? else k in pc.todo)
  }

  /** Nor with its hard deadline, which is looked at last. */
  predicate HardUnseen(pc: Pc, k: nat) { Unseen(pc, k) || (pc.Poll? && pc.child == k) }

  predicate KillPc(p: PollPc) { p.KGuard? || p.KIssue? || p.KClear? || p.KHard? }

  predicate ArmPc(p: PollPc) { p.TFlag? || p.TGuard? || p.TIssue? || p.TArm? }

  predicate KillingIt(pc: Pc, k: nat) { pc.Poll? && pc.child == k && KillPc(pc.poll) }

  predicate ArmingIt(pc: Pc, k: nat) { pc.Poll? && pc.child == k && ArmPc(pc.poll) }

  /** The launch of the child is under way and will look at the signal. */
  predicate LaunchingIt(pc: Pc, k: nat) { pc.Launch? && pc.child == k && !pc.launch.LTop? && !pc.launch.LPopen? }

  /** The child is already marked as retired and not yet removed. */
  predicate Retiring(pc: Pc, k: nat) { pc.Poll? && pc.child == k && (pc.poll.PReap? || pc.poll.PRemove?) }

  predicate WillArm(f: Frame, k: nat) { (f.HTerm? || f.HMark? || f.HGuard? || f.HIssue? || f.HArm?) && f.child <= k }

  /** Some active handler has still to arm the child's grace deadline. */
  ghost predicate ToArm(frames: seq<Frame>, k: nat) {
    exists i :: 0 <= i < |frames| && WillArm(frames[i], k)
  }

  /** Some active handler has passed the test for a signal and has still to record its own. */
  ghost predicate ToRecord(frames: seq<Frame>) {
    exists i :: 0 <= i < |frames| && frames[i].HRecord?
  }

  // ---- the invariant, for one child ----

  function Slack(c: Config, unseen: bool): real { if unseen then c.longest else 0.0 }

  /** The child waits for its timeout, its grace deadline or its hard deadline. */
  ghost predicate Waiting(c: Config, pc: Pc, k: nat, a: Clock, now: real, entered: real) {
    if a.grace.Some? then now <= Max(a.grace.value, entered) + Slack(c, Unseen(pc, k))
    else if a.hard.Some? then now <= a.hard.value + Slack(c, HardUnseen(pc, k))
    else !a.timedOut && now <= Noticeable(a, entered) + Slack(c, Unseen(pc, k))
  }

  /** No signal has been recorded. */
  ghost predicate Calm(c: Config, pc: Pc, k: nat, a: Clock, now: real, entered: real) {
    var d := Noticeable(a, entered);
    && (a.grace.Some? ==> a.grace.value <= FirstGrace(c, d))
    && (a.hard.Some? ==> a.hard.value <= FirstHard(c, d) && a.grace.None?)
    && (a.grace.Some? || a.hard.Some? || KillingIt(pc, k) ==> a.timedOut)
    && (KillingIt(pc, k) ==> now <= FirstGrace(c, d) + c.longest && a.hard.None?)
    && (KillingIt(pc, k) && pc.poll.KHard? ==> a.grace.None?)
    && (ArmingIt(pc, k) ==> now <= d + c.longest && a.hard.None? && a.grace.None? && (pc.poll.TFlag? || a.timedOut))
    && (!KillingIt(pc, k) && !ArmingIt(pc, k) ==> Waiting(c, pc, k, a, now, entered))
  }

  /** A signal was recorded at `at`; `toArm` tells whether the handler has still to reach the child. */
  ghost predicate Signalled(c: Config, pc: Pc, k: nat, a: Clock, now: real, entered: real, at: real, toArm: bool) {
    var d := Noticeable(a, entered);
    && at <= LastSignal(c, d)
    && (a.grace.Some? ==> a.grace.value <= SecondGrace(c, d))
    && (a.hard.Some? ==> a.hard.value <= SecondHard(c, d))
    && (KillingIt(pc, k) ==> now <= SecondGrace(c, d) + c.longest)
    && (KillingIt(pc, k) && pc.poll.KHard? && a.grace.Some? ==> now <= a.grace.value)
    && (ArmingIt(pc, k) ==> now <= d + c.longest)
    && (toArm ==> now <= at && now <= FirstHard(c, d) + c.longest)
    && (!toArm && !KillingIt(pc, k) && !ArmingIt(pc, k) ==>
          Waiting(c, pc, k, a, now, entered) && (a.grace.Some? || a.hard.Some?))
  }

  /** Before the loop only a signal can have armed anything. */
  ghost predicate Launching(c: Config, t: Timed, k: nat)
    requires k < |t.clocks| && k < |t.base.children|
  {
    var s, a := t.base, t.clocks[k];
    && a.hard.None? && !a.timedOut && !s.children[k].retired && t.signalAt <= t.clock
    && (a.grace.Some? ==> a.grace.value <= t.clock + c.grace)
    && (!s.signalled ==> a.grace.None?)
    && (s.pc.Launch? && (s.pc.launch.LMark? || s.pc.launch.LGuard? || s.pc.launch.LIssue? || s.pc.launch.LArm?) ==>
          s.signalled)
    && (s.signalled && !ToArm(s.frames, k) && s.children[k].spawned && !LaunchingIt(s.pc, k) ==> a.grace.Some?)
  }

  ghost predicate Timed1(c: Config, t: Timed, k: nat) {
    var s := t.base;
    && k < |t.clocks| == |s.children| == |c.timeouts|
    && (!s.signalled ==> !ToArm(s.frames, k))
    && (s.pc.Launch? ==> Launching(c, t, k))
    && (Polling(s.pc) && k in s.pending ==> s.children[k].spawned)
    && (Retiring(s.pc, k) ==> s.children[k].retired)
    && (Polling(s.pc) ==> t.entered <= t.now <= t.clock <= t.now + c.longest)
    && (Active(s, k) ==>
          if s.signalled then Signalled(c, s.pc, k, t.clocks[k], t.now, t.entered, t.signalAt, ToArm(s.frames, k))
          else Calm(c, s.pc, k, t.clocks[k], t.now, t.entered))
    && (Active(s, k) && s.signalled && ToRecord(s.frames) ==>
          t.now <= FirstHard(c, Noticeable(t.clocks[k], t.entered)) + c.longest)
  }

  // ---- the main program ----

  lemma LaunchHolds(c: Config, t: Timed, k: nat, i: nat, p: LaunchPc)
    requires ValidConfig(c) && Timed1(c, t, k) && t.base.pc == Launch(i, p) && t.base.frames == []
    ensures Timed1(c, MainClock(c, t).(base := LaunchStep(t.base, i, p)), k)
  {
    hide ToArm, ToRecord, MaySignal;
    NoneToArm(k);
  }

  lemma TurnHolds(c: Config, t: Timed, k: nat, ch: Choice)
    requires ValidConfig(c) && Timed1(c, t, k) && t.base.frames == []
    ensures t.base.pc.Turn? ==> Timed1(c, MainClock(c, t).(base := TurnStep(t.base)), k)
    ensures t.base.pc.Pick? ==> Timed1(c, MainClock(c, t).(base := PickStep(t.base, t.base.pc.todo, ch)), k)
  {
    hide ToArm, ToRecord;
    NoneToArm(k);
  }

  /** The statements of one visit, as far as they concern the visited child. */
  lemma VisitMoves(s: State, k: nat, p: PollPc, todo: set<nat>, ch: Choice)
    requires k < |s.children| && s.pc == Poll(k, p, todo) && (Retiring(s.pc, k) ==> s.children[k].retired)
    ensures var s' := PollStep(s, k, p, todo, ch);
            && s'.signalled == s.signalled && |s'.children| == |s.children| && !s'.pc.Launch?
            && (s.frames == [] ==> s'.frames == []) && (s.children[k].spawned ==> s'.children[k].spawned)
            && (k in s'.pending ==> k in s.pending)
            && (s.children[k].retired ==> s'.children[k].retired) && (Retiring(s'.pc, k) ==> s'.children[k].retired)
            && (Polling(s'.pc) && !s'.children[k].retired ==> !p.PMark? && Moves(k, s.signalled, p, ch, todo, s'.pc))
  {}

  /** The next position of a visit. */
  predicate Moves(k: nat, signalled: bool, p: PollPc, ch: Choice, todo: set<nat>, pc: Pc) {
    match p
    case PDecide =>
      pc == Poll(k, if ch.graceOver then KGuard else if !signalled && ch.timedOut then TFlag else PObserve, todo)
    case KGuard => pc == Poll(k, KIssue, todo) || pc == Poll(k, KClear, todo)
    case KIssue => pc == Poll(k, KClear, todo)
    case KClear => pc == Poll(k, KHard, todo)
    case KHard => pc == Poll(k, PObserve, todo)
    case TFlag => pc == Poll(k, TGuard, todo)
    case TGuard => pc == Poll(k, TIssue, todo) || pc == Poll(k, TArm, todo)
    case TIssue => pc == Poll(k, TArm, todo)
    case TArm => pc == Poll(k, PObserve, todo)
    case PObserve => pc == Poll(k, PRetire, todo) || (pc == Pick(todo) && !ch.overdue)
    case PRetire => pc == Poll(k, PMark, todo)
    case _ => true
  }

  /** One statement of a visit keeps the bounds. */
  lemma VisitCalm(c: Config, k: nat, p: PollPc, todo: set<nat>, pc: Pc, a: Clock, now: real, entered: real, ch: Choice)
    requires ValidConfig(c) && entered <= now && Calm(c, Poll(k, p, todo), k, a, now, entered)
    requires ch.graceOver == Due(a.grace, now) && ch.overdue == Due(a.hard, now)
    requires ch.timedOut == (a.grace.None? && !a.timedOut && now >= a.deadline)
    requires Moves(k, false, p, ch, todo, pc) && !p.PMark? && !p.PReap? && !p.PRemove?
    ensures Calm(c, pc, k, PollClock(c, a, p, now), now, entered)
  {}

  lemma VisitSignalled(c: Config, k: nat, p: PollPc, todo: set<nat>, pc: Pc, a: Clock, now: real, entered: real,
                       ch: Choice, at: real)
    requires ValidConfig(c) && entered <= now && Signalled(c, Poll(k, p, todo), k, a, now, entered, at, false)
    requires ch.graceOver == Due(a.grace, now) && ch.overdue == Due(a.hard, now)
    requires Moves(k, true, p, ch, todo, pc) && !p.PMark? && !p.PReap? && !p.PRemove?
    ensures Signalled(c, pc, k, PollClock(c, a, p, now), now, entered, at, false)
  {}

  lemma VisitHolds(c: Config, t: Timed, k: nat, p: PollPc, todo: set<nat>, ch: Choice)
    requires ValidConfig(c) && Timed1(c, t, k) && t.base.frames == [] && t.base.pc == Poll(k, p, todo)
    ensures Timed1(c, MainClock(c, t).(base := PollStep(t.base, k, p, todo, Timely(t, ch))), k)
  {
    hide PollStep, Moves, Calm, Signalled, ToArm, ToRecord;
    NoneToArm(k);
    var right := Timely(t, ch);
    VisitMoves(t.base, k, p, todo, right);
    var s' := PollStep(t.base, k, p, todo, right);
    if Active(s', k) {
      if t.base.signalled {
        VisitSignalled(c, k, p, todo, s'.pc, t.clocks[k], t.now, t.entered, right, t.signalAt);
      } else {
        VisitCalm(c, k, p, todo, s'.pc, t.clocks[k], t.now, t.entered, right);
      }
    }
  }

  lemma OtherHolds(c: Config, t: Timed, k: nat, i: nat, p: PollPc, todo: set<nat>, ch: Choice)
    requires ValidConfig(c) && Timed1(c, t, k) && t.base.frames == [] && t.base.pc == Poll(i, p, todo) && i != k
    ensures Timed1(c, MainClock(c, t).(base := PollStep(t.base, i, p, todo, Timely(t, ch))), k)
  {
    hide ToArm, ToRecord, MaySignal, Timely, PollClock;
    NoneToArm(k);
  }

  /** Off the loop nothing is claimed any more. */
  lemma OffLoop(c: Config, t: Timed, k: nat, b: State)
    requires Timed1(c, t, k) && |b.children| == |t.base.children| && (b.signalled || b.frames == [])
    requires b.pc.Cleanup? || b.pc.Final? || Over(b.pc)
    ensures Timed1(c, t.(base := b), k)
  {
    NoneToArm(k);
  }

  lemma NoneToArm(k: nat)
    ensures !ToArm([], k) && !ToRecord([])
  {}

  lemma LaterSteps(s: State, ch: Choice, may: bool)
    requires s.pc.Cleanup? || s.pc.Final? || Over(s.pc)
    ensures var b := MainStep(s, ch, may);
            && |b.children| == |s.children| && b.signalled == s.signalled && (b.frames == [] || b == s)
            && (b.pc.Cleanup? || b.pc.Final? || Over(b.pc))
  {}

  lemma MainHolds(c: Config, may: bool, t: Timed, k: nat, ch: Choice)
    requires ValidConfig(c) && Timed1(c, t, k)
    ensures Timed1(c, TimedStep(c, may, t, ch), k)
  {
    hide Timed1, LaunchStep, TurnStep, PickStep, PollStep, CleanStep, FinalStep, MainClock, Timely;
    Sizes(c, t, k);
    TimelyRaises(t, ch);
    var s := t.base;
    if s.frames != [] || Over(s.pc) {
    } else if ch.raises && CanRaise(s, may) {
      OffLoop(c, t, k, Raise(s));
    } else {
      match s.pc
      case Launch(i, p) => LaunchHolds(c, t, k, i, p);
      case Turn => TurnHolds(c, t, k, Timely(t, ch));
      case Pick(_) => TurnHolds(c, t, k, Timely(t, ch));
      case Poll(i, p, todo) =>
        if i == k {
          VisitHolds(c, t, k, p, todo, ch);
        } else {
          OtherHolds(c, t, k, i, p, todo, ch);
        }
      case _ => LaterHolds(c, may, t, k, ch);
    }
  }

  lemma TimelyRaises(t: Timed, ch: Choice)
    ensures Timely(t, ch).raises == ch.raises
  {}

  lemma Sizes(c: Config, t: Timed, k: nat)
    requires Timed1(c, t, k)
    ensures k < |t.clocks| == |t.base.children| && (t.base.frames == [] || t.base.signalled || !ToArm(t.base.frames, k))
  {}

  lemma LaterHolds(c: Config, may: bool, t: Timed, k: nat, ch: Choice)
    requires Timed1(c, t, k) && t.base.frames == [] && (t.base.pc.Cleanup? || t.base.pc.Final?)
    requires !(ch.raises && CanRaise(t.base, may))
    ensures Timed1(c, TimedStep(c, may, t, ch), k)
  {
    hide MainStep;
    LaterSteps(t.base, Timely(t, ch), may);
    OffLoop(c, t, k, MainStep(t.base, Timely(t, ch), may));
  }

  // ---- the handler ----

  lemma ToArmTop(below: seq<Frame>, top: Frame, k: nat)
    ensures ToArm(below + [top], k) <==> ToArm(below, k) || WillArm(top, k)
  {
    var all := below + [top];
    assert all[|below|] == top;
    assert forall i :: 0 <= i < |below| ==> all[i] == below[i];
    if ToArm(below, k) {
      var i :| 0 <= i < |below| && WillArm(below[i], k);
      assert WillArm(all[i], k);
    }
  }

  lemma ToRecordTop(below: seq<Frame>, top: Frame)
    ensures ToRecord(below + [top]) <==> ToRecord(below) || top.HRecord?
  {
    var all := below + [top];
    assert all[|below|] == top;
    assert forall i :: 0 <= i < |below| ==> all[i] == below[i];
    if ToRecord(below) {
      var i :| 0 <= i < |below| && below[i].HRecord?;
      assert all[i].HRecord?;
    }
  }

  /** A handler's statement that neither arms child k nor passes it by. */
  ghost predicate SameForIt(s: State, b: State, k: nat) {
    && b.pc == s.pc && b.pending == s.pending && b.signalled == s.signalled && |b.children| == |s.children|
    && k < |s.children| && b.children[k].spawned == s.children[k].spawned
    && b.children[k].retired == s.children[k].retired
    && (ToArm(b.frames, k) <==> ToArm(s.frames, k)) && (s.signalled && ToRecord(b.frames) ==> ToRecord(s.frames))
  }

  lemma SameHolds(c: Config, t: Timed, k: nat, b: State)
    requires Timed1(c, t, k) && SameForIt(t.base, b, k)
    ensures Timed1(c, t.(base := b), k)
  {
    hide ToArm, ToRecord, Calm, Signalled;
  }

  /** The signal is recorded: from now on the handler has the child to arm. */
  lemma RecordHolds(c: Config, t: Timed, k: nat, below: seq<Frame>)
    requires ValidConfig(c) && Timed1(c, t, k) && t.base.frames == below + [HRecord]
    ensures Timed1(c, t.(signalAt := t.clock, base := t.base.(signalled := true, frames := below + [HTerm(0)])), k)
  {
    hide ToArm, ToRecord;
    ToArmTop(below, HTerm(0), k);
    ToRecordTop(below, HRecord);
    var a := t.clocks[k];
    if Active(t.base, k) {
      if t.base.signalled {
        SignalledAgain(c, t.base.pc, k, a, t.now, t.entered, t.signalAt, t.clock, ToArm(t.base.frames, k));
      } else {
        CalmSignalled(c, t.base.pc, k, a, t.now, t.entered, t.clock);
      }
    }
  }

  lemma SignalledAgain(c: Config, pc: Pc, k: nat, a: Clock, now: real, entered: real, before: real, at: real,
                       toArm: bool)
    requires ValidConfig(c) && now <= at <= now + c.longest && Signalled(c, pc, k, a, now, entered, before, toArm)
    requires now <= FirstHard(c, Noticeable(a, entered)) + c.longest
    ensures Signalled(c, pc, k, a, now, entered, at, true)
  {}

  lemma CalmSignalled(c: Config, pc: Pc, k: nat, a: Clock, now: real, entered: real, at: real)
    requires ValidConfig(c) && entered <= now <= at <= now + c.longest && Calm(c, pc, k, a, now, entered)
    ensures Signalled(c, pc, k, a, now, entered, at, true)
    ensures now <= FirstHard(c, Noticeable(a, entered)) + c.longest
  {}

  /** A child that the handler passes by is not started or retired. */
  lemma PassHolds(c: Config, t: Timed, k: nat, below: seq<Frame>)
    requires Timed1(c, t, k) && t.base.frames == below + [HTerm(k)] && !MaySignal(t.base, k)
    ensures Timed1(c, t.(base := t.base.(frames := below + [HTerm(k + 1)])), k)
  {
    hide ToArm, ToRecord, Calm, Signalled;
    ToArmTop(below, HTerm(k), k);
    ToArmTop(below, HTerm(k + 1), k);
    ToRecordTop(below, HTerm(k));
    ToRecordTop(below, HTerm(k + 1));
  }

  lemma ArmHolds(c: Config, t: Timed, k: nat, below: seq<Frame>)
    requires ValidConfig(c) && Timed1(c, t, k) && t.base.frames == below + [HArm(k)]
    ensures Timed1(c, Set(t, k, Armed(t.clocks[k], t.now, t.signalAt + c.grace))
                        .(base := t.base.(frames := below + [HTerm(k + 1)])), k)
  {
    hide ToArm, ToRecord;
    ToArmTop(below, HArm(k), k);
    ToArmTop(below, HTerm(k + 1), k);
    ToRecordTop(below, HArm(k));
    ToRecordTop(below, HTerm(k + 1));
    if Active(t.base, k) {
      ArmedInTime(c, t.base.pc, k, t.clocks[k], t.now, t.entered, t.signalAt, ToArm(below, k));
    }
  }

  lemma ArmedInTime(c: Config, pc: Pc, k: nat, a: Clock, now: real, entered: real, at: real, still: bool)
    requires ValidConfig(c) && Signalled(c, pc, k, a, now, entered, at, true)
    ensures Signalled(c, pc, k, Armed(a, now, at + c.grace), now, entered, at, still)
  {}

  /** Arming another child does not touch this one. */
  lemma OtherArmed(c: Config, t: Timed, k: nat, i: nat, a: Clock)
    requires Timed1(c, t, k) && i != k
    ensures Timed1(c, Set(t, i, a), k)
  {
    hide ToArm, ToRecord, Calm, Signalled;
  }

  lemma AgainIsIdle(c: Config, t: Timed, k: nat, again: bool)
    requires Timed1(c, t, k)
    ensures Timed1(c, t.(again := again), k)
  {
    hide ToArm, ToRecord, Calm, Signalled;
  }

  lemma CancelHolds(c: Config, t: Timed, k: nat, top: Frame, below: seq<Frame>)
    requires ValidConfig(c) && Timed1(c, t, k) && t.base.frames == below + [top]
    ensures Timed1(c, HandlerClock(c, t, top).(base := CancelStep(t.base, top, below)), k)
  {
    hide Timed1, ToArm, ToRecord;
    Sizes(c, t, k);
    var b := CancelStep(t.base, top, below);
    if top.HRecord? {
      RecordHolds(c, t, k, below);
    } else if top == HTerm(k) && !MaySignal(t.base, k) {
      PassHolds(c, t, k, below);
    } else if top == HArm(k) {
      ArmHolds(c, t, k, below);
    } else {
      SameStep(t.base, k, top, below);
      SameHolds(c, t, k, b);
      AgainIsIdle(c, t.(base := b), k, t.again || t.base.signalled);
      if top.HArm? {
        OtherArmed(c, t.(base := b), k, top.child, Armed(At(t, top.child), t.now, t.signalAt + c.grace));
      }
    }
  }

  lemma SameStep(s: State, k: nat, top: Frame, below: seq<Frame>)
    requires k < |s.children| && s.frames == below + [top]
    requires !top.HRecord? && !(top == HTerm(k) && !MaySignal(s, k)) && top != HArm(k)
    ensures SameForIt(s, CancelStep(s, top, below), k)
  {
    hide ToArm, ToRecord;
    var b := CancelStep(s, top, below);
    ToArmTop(below, top, k);
    ToRecordTop(below, top);
    if b.frames != below && b.frames != s.frames {
      var f := b.frames[|b.frames| - 1];
      assert b.frames == below + [f];
      ToArmTop(below, f, k);
      ToRecordTop(below, f);
    }
  }

  // ---- whole runs ----

  lemma NextHolds(c: Config, may: bool, t: Timed, k: nat, e: TimedEvent)
    requires ValidConfig(c) && Timed1(c, t, k)
    ensures Timed1(c, TimedNext(c, may, t, e), k)
  {
    match e
    case Do(Step(ch)) => MainHolds(c, may, t, k, ch);
    case Do(Interrupt) => InterruptHolds(c, may, t, k);
    case Do(HandlerStep(raises)) => HandlerHolds(c, may, t, k, raises);
    case Tick(dt) => TickHolds(c, t, k, dt);
  }

  lemma InterruptHolds(c: Config, may: bool, t: Timed, k: nat)
    requires Timed1(c, t, k)
    ensures Timed1(c, t.(base := Next(may, t.base, Interrupt)), k)
  {
    hide Timed1, ToArm, ToRecord;
    Sizes(c, t, k);
    ToArmTop(t.base.frames, HBegin, k);
    ToRecordTop(t.base.frames, HBegin);
    SameHolds(c, t, k, Next(may, t.base, Interrupt));
  }

  lemma HandlerHolds(c: Config, may: bool, t: Timed, k: nat, raises: bool)
    requires ValidConfig(c) && Timed1(c, t, k)
    ensures Timed1(c, TimedHandler(c, may, t, raises), k)
  {
    hide Timed1, ToArm, ToRecord, CancelStep, HandlerClock;
    Sizes(c, t, k);
    var s := t.base;
    if s.frames != [] && !Over(s.pc) {
      if raises && CanRaise(s, may) {
        OffLoop(c, t, k, Raise(s));
      } else {
        var n := |s.frames| - 1;
        assert s.frames == s.frames[..n] + [s.frames[n]];
        CancelHolds(c, t, k, s.frames[n], s.frames[..n]);
      }
    }
  }

  lemma TickHolds(c: Config, t: Timed, k: nat, dt: real)
    requires Timed1(c, t, k)
    ensures Timed1(c, Elapse(c, t, dt), k)
  {
    hide ToArm, ToRecord, Calm, Signalled;
  }

  lemma {:induction false} RunHolds(c: Config, may: bool, clock: real, es: seq<TimedEvent>, k: nat)
    requires ValidConfig(c) && k < |c.timeouts|
    ensures Timed1(c, TimedRun(c, may, TimedInit(c, clock), es), k)
  {
    hide TimedNext, Timed1;
    if es == [] {
      InitHolds(c, clock, k);
    } else {
      RunHolds(c, may, clock, es[..|es| - 1], k);
      NextHolds(c, may, TimedRun(c, may, TimedInit(c, clock), es[..|es| - 1]), k, es[|es| - 1]);
    }
  }

  lemma InitHolds(c: Config, clock: real, k: nat)
    requires k < |c.timeouts|
    ensures Timed1(c, TimedInit(c, clock), k)
  {}

  /**
   * The settlement bound of a batch. In every run, whatever the children, their pipes and the
   * signals do, a child that is still supervised is so at most two grace-and-reap allowances and
   * seven turns after its own timeout, or after the start of the loop if that came later.
   */
  lemma BatchSettlementBound(c: Config, may: bool, clock: real, es: seq<TimedEvent>, k: nat)
    requires ValidConfig(c) && k < |c.timeouts|
    ensures var t := TimedRun(c, may, TimedInit(c, clock), es);
            && k < |t.clocks|
            && (Active(t.base, k) ==>
                  t.clock <= Max(t.clocks[k].deadline, t.entered) + 2.0 * (c.grace + c.reap) + 7.0 * c.longest)
  {
    hide TimedRun;
    RunHolds(c, may, clock, es, k);
    var t := TimedRun(c, may, TimedInit(c, clock), es);
    if Active(t.base, k) { StillInTime(c, t, k); }
  }

  lemma StillInTime(c: Config, t: Timed, k: nat)
    requires ValidConfig(c) && Timed1(c, t, k) && Active(t.base, k)
    ensures t.clock <= Noticeable(t.clocks[k], t.entered) + 2.0 * (c.grace + c.reap) + 7.0 * c.longest
  {
    hide ToArm;
  }
}
