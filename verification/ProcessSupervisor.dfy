/**
 * tools/process_supervisor.py: run_process as a step machine. The main program advances one
 * statement at a time, the cancel handler may be entered between any two statements and is
 * itself interruptible, exceptions may be raised anywhere, and time passes in between.
 */
module ProcessSupervisor {
  import opened Wrappers
  import opened Capture

  // ---- control ----

  /** Up to the supervision loop. */
  datatype StartPc = Spawn | Register | SetDeadline | CheckEarly | EarlyCheck | EarlySend | EarlyArm

  /** The loop: its top, its four conditions, and waiting for output and for the leader. */
  datatype LoopPc = Top | Cond1 | Cond2 | Cond3 | Cond4 | Wait | Observe | Drain | Overdue

  /** The grace period is over: kill the group. */
  datatype KillPc = KCheck | KSend | KClear | KFlag | KDeadline

  /** A timeout or an early abort: terminate the group and arm the grace deadline. */
  datatype ArmPc = AFlag | ACheck | ASend | AArm

  /** Settling a finished run. */
  datatype SettlePc = Decode | Retire | MarkRetired | Reap | Post

  /** The exception path. */
  datatype ExcPc = XGuard | XTermCheck | XTermSend | XKillCheck | XKillSend | XMark | XReap

  /** What arms the grace deadline. */
  datatype Arm = OnAbort | OnTimeout | OnInterrupt

  /** The next statement of the main program. */
  datatype Pc =
    | Start(start: StartPc) | Loop(loop: LoopPc) | Killing(kill: KillPc) | Arming(cause: Arm, arm: ArmPc)
    | Settling(settle: SettlePc) | Failing(fail: ExcPc) | Returned | Raised

  /** The next statement of one activation of the cancel handler. */
  datatype Frame = Begin(signum: int) | Record(signum: int) | KillTest | KillIssue | TermTest | TermIssue | SetGrace

  // ---- data ----

  datatype Signum = TERM | KILL

  /** A group signal that was issued, and whether the leader was held unreaped at that moment. */
  datatype GroupSignal = GroupSignal(signum: Signum, leaderHeld: bool)

  /** The owned process group: the `process` variable, `group_retired`, the wait, and all signals sent. */
  datatype Group = Group(spawned: bool, retired: bool, reaped: bool, signals: seq<GroupSignal>)

  /** `now` is the reading that the current loop turn works with; `turns` counts the turns. */
  datatype Time = Time(clock: real, now: real, turns: nat)

  /**
   * What has armed the grace deadline so far. `midArm` marks an interrupt recorded while the main
   * program was arming, `passed` counts the handlers that found no interrupt recorded, and
   * `handled` those that have armed the deadline.
   */
  datatype ArmLog = ArmLog(arms: seq<Arm>, midArm: bool, passed: nat, handled: nat)

  /**
   * What else happened: when the run started its clock, the turn that first armed the grace deadline,
   * whether `abort_when` asked for the end, whether a signal arrived while one was recorded and
   * the group could be signalled, whether the loop gave up on the leader, and whether the group
   * was found with live or unknown members when it was retired.
   */
  datatype Past = Past(started: real, since: Option<real>, asked: bool, again: bool, gaveUp: bool, orphaned: bool)

  /** Why and when the run is to end. `killTurn` marks the turn of the last kill. */
  datatype Alarm = Alarm(
    timedOut: bool, aborted: bool, interrupted: Option<int>, deadline: real, grace: Option<real>,
    hardStop: bool, hardDeadline: Option<real>, killTurn: bool, log: ArmLog, past: Past)

  /** `eof` tells that every writer has closed its end. */
  datatype Output = Output(
    leaderDone: bool, pipesOpen: bool, eof: bool, captured: Captured, received: seq<Chunk>)

  datatype State = State(pc: Pc, frames: seq<Frame>, time: Time, group: Group, alarm: Alarm, output: Output)

  /** Timeout, grace, post-kill allowance, longest and shortest loop turn, and the capture limit. */
  datatype Config = Config(
    timeout: real, grace: real, reap: real, longest: real, shortest: real, limit: Option<nat>)

  ghost predicate ValidConfig(c: Config) {
    c.timeout > 0.0 && c.grace > 0.0 && c.reap > 0.0 && c.longest >= 0.0 && c.shortest >= 0.0
  }

  /** Everything the main program does not decide itself. */
  datatype Choice = Choice(
    raises: bool, abortWhen: bool, chunks: seq<Chunk>, staysOpen: bool, leaderDone: bool, retireKills: bool,
    unknown: bool, reapedInTime: bool)

  datatype Event = Step(choice: Choice) | Interrupt(signum: int) | HandlerStep(raises: bool) | Tick(dt: real)

  function Init(clock: real): State {
    State(Start(Spawn), [], Time(clock, clock, 0), Group(false, false, false, []),
          Alarm(false, false, None, clock, None, false, None, false, ArmLog([], false, 0, 0),
                Past(clock, None, false, false, false, false)),
          Output(false, true, false, NOTHING, []))
  }

  // ---- group signals ----

  function Issue(g: Group, signum: Signum): Group {
    g.(signals := g.signals + [GroupSignal(signum, g.spawned && !g.reaped)])
  }

  /** signal_group, first half: the guard before killpg. */
  predicate MaySignal(g: Group) { g.spawned && !g.retired }

  // ---- the main program, region by region ----

  function StartStep(c: Config, s: State, p: StartPc): State {
    match p
    case Spawn => s.(group := s.group.(spawned := true), pc := Start(Register))
    case Register => s.(pc := Start(SetDeadline))
    case SetDeadline =>
      s.(alarm := s.alarm.(deadline := s.time.clock + c.timeout, past := s.alarm.past.(started := s.time.clock)),
         time := s.time.(now := s.time.clock),
         pc := Start(CheckEarly))
    case CheckEarly => s.(pc := if s.alarm.interrupted.Some? then Start(EarlyCheck) else Loop(Top))
    case EarlyCheck => s.(pc := Start(if MaySignal(s.group) then EarlySend else EarlyArm))
    case EarlySend => s.(group := Issue(s.group, TERM), pc := Start(EarlyArm))
    case EarlyArm =>
      s.(alarm := if s.alarm.grace.None? then Armed(s.alarm, s.time, s.time.clock + c.grace, OnInterrupt) else s.alarm,
         pc := Loop(Top))
  }

  function Armed(a: Alarm, t: Time, until: real, cause: Arm): Alarm {
    a.(grace := Some(until), log := Noted(a.log, cause),
       past := if a.past.since.None? then a.past.(since := Some(t.now)) else a.past)
  }

  function Noted(l: ArmLog, cause: Arm): ArmLog {
    l.(arms := l.arms + [cause], handled := if cause.OnInterrupt? then l.handled + 1 else l.handled)
  }

  /** `until` has been reached. */
  predicate Due(t: Option<real>, now: real) { t.Some? && now >= t.value }

  function ReadChunks(limit: Option<nat>, k: Captured, chunks: seq<Chunk>): Captured {
    if chunks == [] then k else Read(limit, ReadChunks(limit, k, chunks[..|chunks| - 1]), chunks[|chunks| - 1])
  }

  function WaitForOutput(c: Config, o: Output, ch: Choice): Output {
    if o.pipesOpen then
      o.(captured := ReadChunks(c.limit, o.captured, ch.chunks), received := o.received + ch.chunks,
         pipesOpen := ch.staysOpen, eof := !ch.staysOpen)
    else o
  }

  /** The group was killed long enough ago and the leader is still not done. */
  predicate IsOverdue(s: State) {
    s.alarm.hardStop && !s.output.leaderDone && s.alarm.grace.None? && Due(s.alarm.hardDeadline, s.time.clock)
  }

  /** The loop body. A turn shorter than the configured minimum stays at the top. */
  function LoopStep(c: Config, s: State, l: LoopPc, ch: Choice): State {
    var a, now := s.alarm, s.time.now;
    match l
    case Top =>
      if s.time.clock < now + c.shortest then s
      else s.(time := Time(s.time.clock, s.time.clock, s.time.turns + 1), alarm := a.(killTurn := false),
              pc := Loop(Cond1))
    case Cond1 => s.(pc := if (a.timedOut || a.aborted) && Due(a.grace, now) then Killing(KCheck) else Loop(Cond2))
    case Cond2 =>
      s.(pc := if a.interrupted.Some? && a.grace.Some? then (if Due(a.grace, now) then Killing(KCheck) else Loop(Wait))
               else Loop(Cond3))
    case Cond3 =>
      s.(pc := if !a.timedOut && a.interrupted.None? && now >= a.deadline then Arming(OnTimeout, AFlag)
          else Loop(Cond4))
    case Cond4 =>
      if a.timedOut || a.aborted || a.interrupted.Some? then s.(pc := Loop(Wait))
      else if s.output.captured.overflow then s.(pc := Arming(OnAbort, AFlag))
      else
        s.(alarm := a.(past := a.past.(asked := a.past.asked || ch.abortWhen)),
           pc := if ch.abortWhen then Arming(OnAbort, AFlag) else Loop(Wait))
    case Wait => s.(output := WaitForOutput(c, s.output, ch), pc := Loop(Observe))
    case Observe =>
      s.(output := s.output.(leaderDone := ch.leaderDone),
         pc := if ch.leaderDone && !s.output.pipesOpen then Settling(Decode) else Loop(Drain))
    case Drain => s.(output := s.output.(pipesOpen := s.output.pipesOpen && !a.hardStop), pc := Loop(Overdue))
    case Overdue =>
      if IsOverdue(s) then s.(alarm := a.(past := a.past.(gaveUp := true)), pc := Failing(XGuard))
          else s.(pc := Loop(Top))
  }

  function KillStep(c: Config, s: State, k: KillPc): State {
    match k
    case KCheck => s.(pc := Killing(if MaySignal(s.group) then KSend else KClear))
    case KSend => s.(group := Issue(s.group, KILL), pc := Killing(KClear))
    case KClear => s.(alarm := s.alarm.(grace := None), pc := Killing(KFlag))
    case KFlag => s.(alarm := s.alarm.(hardStop := true, killTurn := true), pc := Killing(KDeadline))
    case KDeadline => s.(alarm := s.alarm.(hardDeadline := Some(s.time.now + c.reap)), pc := Loop(Wait))
  }

  function ArmStep(c: Config, s: State, cause: Arm, p: ArmPc): State {
    match p
    case AFlag =>
      s.(alarm := if cause.OnAbort? then s.alarm.(aborted := true) else s.alarm.(timedOut := true),
         pc := Arming(cause, ACheck))
    case ACheck => s.(pc := Arming(cause, if MaySignal(s.group) then ASend else AArm))
    case ASend => s.(group := Issue(s.group, TERM), pc := Arming(cause, AArm))
    case AArm => s.(alarm := Armed(s.alarm, s.time, s.time.now + c.grace, cause), pc := Loop(Wait))
  }

  function SettleStep(s: State, t: SettlePc, ch: Choice): State {
    match t
    case Decode =>
      s.(alarm := s.alarm.(aborted := s.alarm.aborted || s.output.captured.overflow), pc := Settling(Retire))
    case Retire =>
      s.(group := if ch.retireKills then Issue(s.group, KILL) else s.group,
         alarm := s.alarm.(past := s.alarm.past.(orphaned := ch.retireKills || ch.unknown)),
             pc := Settling(MarkRetired))
    case MarkRetired => s.(group := s.group.(retired := true), pc := Settling(Reap))
    case Reap => s.(group := s.group.(reaped := true), pc := Settling(Post))
    case Post => s.(alarm := s.alarm.(aborted := s.alarm.aborted || s.alarm.past.orphaned), pc := Returned)
  }

  function FailStep(s: State, x: ExcPc, ch: Choice): State {
    match x
    case XGuard => s.(pc := if MaySignal(s.group) then Failing(XTermCheck) else Raised)
    case XTermCheck => s.(pc := Failing(if MaySignal(s.group) then XTermSend else XKillCheck))
    case XTermSend => s.(group := Issue(s.group, TERM), pc := Failing(XKillCheck))
    case XKillCheck => s.(pc := Failing(if MaySignal(s.group) then XKillSend else XMark))
    case XKillSend => s.(group := Issue(s.group, KILL), pc := Failing(XMark))
    case XMark => s.(group := s.group.(retired := true), pc := Failing(XReap))
    case XReap => s.(group := s.group.(reaped := s.group.reaped || ch.reapedInTime), pc := Raised)
  }

  predicate Over(pc: Pc) { pc.Returned? || pc.Raised? }

  /** An exception: out of the try block into the exception path, out of that to the caller. */
  function Raise(s: State): State {
    s.(frames := [], pc := if s.pc.Failing? then Raised else Failing(XGuard))
  }

  /** One statement of the main program; it is suspended while a handler is active. */
  function MainStep(c: Config, s: State, ch: Choice): State {
    if s.frames != [] || Over(s.pc) then s
    else if ch.raises then Raise(s)
    else
      match s.pc
      case Start(p) => StartStep(c, s, p)
      case Loop(l) => LoopStep(c, s, l, ch)
      case Killing(k) => KillStep(c, s, k)
      case Arming(cause, p) => ArmStep(c, s, cause, p)
      case Settling(t) => SettleStep(s, t, ch)
      case Failing(x) => FailStep(s, x, ch)
      case _ => s
  }

  // ---- the cancel handler ----

  /** One statement of the innermost active handler. Testing for an interrupt and recording it are two statements. */
  function CancelStep(c: Config, s: State, top: Frame, below: seq<Frame>): State {
    match top
    case Begin(signum) =>
      if s.alarm.interrupted.Some? then
        s.(alarm := s.alarm.(past := s.alarm.past.(again := s.alarm.past.again || MaySignal(s.group))),
           frames := below + [KillTest])
      else s.(alarm := s.alarm.(log := s.alarm.log.(passed := s.alarm.log.passed + 1)),
              frames := below + [Record(signum)])
    case Record(signum) =>
      s.(alarm := Recorded(s.alarm, signum, s.pc.Arming?), frames := below + [TermTest])
    case KillTest => s.(frames := if MaySignal(s.group) then below + [KillIssue] else below)
    case KillIssue => s.(group := Issue(s.group, KILL), frames := below)
    case TermTest => s.(frames := below + [if MaySignal(s.group) then TermIssue else SetGrace])
    case TermIssue => s.(group := Issue(s.group, TERM), frames := below + [SetGrace])
    case SetGrace => s.(alarm := Armed(s.alarm, s.time, s.time.clock + c.grace, OnInterrupt), frames := below)
  }

  function Recorded(a: Alarm, signum: int, arming: bool): Alarm {
    a.(interrupted := Some(signum), log := a.log.(midArm := a.log.midArm || arming))
  }

  function HandlerMove(c: Config, s: State, raises: bool): State {
    if s.frames == [] || Over(s.pc) then s
    else if raises then Raise(s)
    else CancelStep(c, s, s.frames[|s.frames| - 1], s.frames[..|s.frames| - 1])
  }

  /** Statements of the supervision loop, including the way into it. */
  predicate InLoop(pc: Pc) {
    pc.Loop? || pc.Killing? || pc.Arming?
    || (pc.Start? && !pc.start.Spawn? && !pc.start.Register? && !pc.start.SetDeadline?)
  }

  /** One turn of the loop, handlers included, takes at most the configured time. */
  function Elapse(c: Config, s: State, dt: real): State {
    if dt < 0.0 || (InLoop(s.pc) && s.time.clock + dt > s.time.now + c.longest) then s
    else s.(time := s.time.(clock := s.time.clock + dt))
  }

  function Next(c: Config, s: State, e: Event): State {
    match e
    case Step(ch) => MainStep(c, s, ch)
    case Interrupt(signum) => if Over(s.pc) then s else s.(frames := s.frames + [Begin(signum)])
    case HandlerStep(raises) => HandlerMove(c, s, raises)
    case Tick(dt) => Elapse(c, s, dt)
  }

  function Run(c: Config, s: State, es: seq<Event>): State {
    if es == [] then s else Next(c, Run(c, s, es[..|es| - 1]), es[|es| - 1])
  }
}
