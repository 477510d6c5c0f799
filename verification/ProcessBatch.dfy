/**
 * tools/process_supervisor.py: run_process_batch as a step machine over any number of child
 * groups with one cancel handler. What depends on the pipes and the children is a free choice
 * at every step, and so is what depends on the clock, which BatchClock adds; the handler walks
 * over all children and may itself be interrupted.
 */
module ProcessBatch {
  /** One command's slot: `processes`, `group_retired`, the wait, and `interrupted`. */
  datatype Child = Child(spawned: bool, retired: bool, reaped: bool, interrupted: bool)

  datatype Signum = TERM | KILL

  /** A group signal, and whether that group's leader was held unreaped at that moment. */
  datatype Sent = Sent(child: nat, signum: Signum, leaderHeld: bool)

  /** Starting one child. */
  datatype LaunchPc = LTop | LPopen | LSubmit | LCheck | LMark | LGuard | LIssue | LArm

  /** One visit of a pending child. */
  datatype PollPc =
    | PDecide | KGuard | KIssue | KClear | KHard | TFlag | TGuard | TIssue | TArm
    | PObserve | PRetire | PMark | PReap | PRemove

  /** Cleaning up one child on the exception path. */
  datatype CleanPc = CTermGuard | CTermIssue | CKillGuard | CKillIssue | CMark

  datatype Pc =
    | Launch(child: nat, launch: LaunchPc) | Turn | Pick(todo: set<nat>)
    | Poll(child: nat, poll: PollPc, todo: set<nat>)
    | Cleanup(child: nat, clean: CleanPc) | Final(failed: bool, child: nat) | Returned | Raised

  /**
   * One activation of the cancel handler: recording the signal, killing from a child on, or
   * terminating from a child on.
   */
  datatype Frame =
    | HBegin | HRecord | HKill(child: nat) | HKillIssue(child: nat)
    | HTerm(child: nat) | HMark(child: nat) | HGuard(child: nat) | HIssue(child: nat) | HArm(child: nat)

  /** `signalled` is `interrupted_by_signal`; `late` counts children started after it was set. */
  datatype State = State(
    pc: Pc, frames: seq<Frame>, children: seq<Child>, sent: seq<Sent>, signalled: bool, pending: set<nat>, late: nat)

  datatype Choice = Choice(
    raises: bool, next: nat, graceOver: bool, timedOut: bool, finished: bool, overdue: bool, retireKills: bool,
        reapedInTime: bool)

  datatype Event = Step(choice: Choice) | Interrupt | HandlerStep(raises: bool)

  function Init(n: nat): State {
    State(Launch(0, LTop), [], seq(n, i => Child(false, false, false, false)), [], false, {}, 0)
  }

  // ---- group signals ----

  predicate MaySignal(s: State, i: nat) { i < |s.children| && s.children[i].spawned && !s.children[i].retired }

  function Issue(s: State, i: nat, signum: Signum): State
    requires i < |s.children|
  {
    s.(sent := s.sent + [Sent(i, signum, s.children[i].spawned && !s.children[i].reaped)])
  }

  function Update(s: State, i: nat, c: Child): State
    requires i < |s.children|
  {
    s.(children := s.children[i := c])
  }

  // ---- the main program ----

  function Spawned(children: seq<Child>): set<nat> {
    set i: nat | i < |children| && children[i].spawned
  }

  function LaunchStep(s: State, i: nat, p: LaunchPc): State {
    if i >= |s.children| then s.(pending := Spawned(s.children), pc := Turn)
    else
      var c := s.children[i];
      match p
      case LTop => if s.signalled then s.(pending := Spawned(s.children), pc := Turn) else s.(pc := Launch(i, LPopen))
      case LPopen =>
        Update(s, i, c.(spawned := true)).(late := if s.signalled then s.late + 1 else s.late, pc := Launch(i, LSubmit))
      case LSubmit => s.(pc := Launch(i, LCheck))
      case LCheck => s.(pc := if s.signalled then Launch(i, LMark) else Launch(i + 1, LTop))
      case LMark => Update(s, i, c.(interrupted := true)).(pc := Launch(i, LGuard))
      case LGuard => s.(pc := Launch(i, if MaySignal(s, i) then LIssue else LArm))
      case LIssue => Issue(s, i, TERM).(pc := Launch(i, LArm))
      case LArm => s.(pc := Launch(i + 1, LTop))
  }

  function TurnStep(s: State): State {
    s.(pc := if s.pending == {} then Final(false, 0) else Pick(s.pending))
  }

  function PickStep(s: State, todo: set<nat>, ch: Choice): State {
    if todo == {} then s.(pc := Turn)
    else if ch.next in todo then s.(pc := Poll(ch.next, PDecide, todo - {ch.next}))
    else s
  }

  function PollStep(s: State, i: nat, p: PollPc, todo: set<nat>, ch: Choice): State {
    if i >= |s.children| then s
    else
      var c := s.children[i];
      match p
      case PDecide =>
        s.(pc := Poll(i, if ch.graceOver then KGuard else if !s.signalled && ch.timedOut then TFlag else PObserve,
                      todo))
      case KGuard => s.(pc := Poll(i, if MaySignal(s, i) then KIssue else KClear, todo))
      case KIssue => Issue(s, i, KILL).(pc := Poll(i, KClear, todo))
      case KClear => s.(pc := Poll(i, KHard, todo))
      case KHard => s.(pc := Poll(i, PObserve, todo))
      case TFlag => s.(pc := Poll(i, TGuard, todo))
      case TGuard => s.(pc := Poll(i, if MaySignal(s, i) then TIssue else TArm, todo))
      case TIssue => Issue(s, i, TERM).(pc := Poll(i, TArm, todo))
      case TArm => s.(pc := Poll(i, PObserve, todo))
      case PObserve =>
        if ch.finished then s.(pc := Poll(i, PRetire, todo)) else if ch.overdue then Raise(s) else s.(pc := Pick(todo))
      case PRetire => (if ch.retireKills then Issue(s, i, KILL) else s).(pc := Poll(i, PMark, todo))
      case PMark => Update(s, i, c.(retired := true)).(pc := Poll(i, PReap, todo))
      case PReap => Update(s, i, c.(reaped := true)).(pc := Poll(i, PRemove, todo))
      case PRemove => s.(pending := s.pending - {i}, pc := Pick(todo))
  }

  function CleanStep(s: State, i: nat, p: CleanPc): State {
    if i >= |s.children| then s.(pc := Final(true, 0))
    else
      match p
      case CTermGuard => s.(pc := Cleanup(i, if MaySignal(s, i) then CTermIssue else CKillGuard))
      case CTermIssue => Issue(s, i, TERM).(pc := Cleanup(i, CKillGuard))
      case CKillGuard => s.(pc := Cleanup(i, if MaySignal(s, i) then CKillIssue else CMark))
      case CKillIssue => Issue(s, i, KILL).(pc := Cleanup(i, CMark))
      case CMark => Update(s, i, s.children[i].(retired := true)).(pc := Cleanup(i + 1, CTermGuard))
  }

  /**
   * The finally clause: after a failure every started leader is waited for, briefly; the handlers
   * are restored last.
   */
  function FinalStep(s: State, failed: bool, i: nat, ch: Choice): State {
    if !failed then s.(pc := Returned)
    else if i >= |s.children| then s.(pc := Raised)
    else
      var c := s.children[i];
      Update(s, i, c.(reaped := c.reaped || (c.spawned && ch.reapedInTime))).(pc := Final(true, i + 1))
  }

  predicate Over(pc: Pc) { pc.Returned? || pc.Raised? }

  /** An exception: into the cleanup loop, from there into the finally clause, from there to the caller. */
  function Raise(s: State): State {
    s.(frames := [], pc := match s.pc
                           case Cleanup(_, _) => Final(true, 0)
                           case Final(_, _) => Raised
                           case _ => Cleanup(0, CTermGuard))
  }

  /** An exception may be raised here; the flag says whether the cleanup loop may fail too. */
  predicate CanRaise(s: State, cleanupMayRaise: bool) { s.pc.Cleanup? ==> cleanupMayRaise }

  function MainStep(s: State, ch: Choice, cleanupMayRaise: bool): State {
    if s.frames != [] || Over(s.pc) then s
    else if ch.raises && CanRaise(s, cleanupMayRaise) then Raise(s)
    else
      match s.pc
      case Launch(i, p) => LaunchStep(s, i, p)
      case Turn => TurnStep(s)
      case Pick(todo) => PickStep(s, todo, ch)
      case Poll(i, p, todo) => PollStep(s, i, p, todo, ch)
      case Cleanup(i, p) => CleanStep(s, i, p)
      case Final(failed, i) => FinalStep(s, failed, i, ch)
      case _ => s
  }

  // ---- the cancel handler ----

  function CancelStep(s: State, top: Frame, below: seq<Frame>): State {
    match top
    case HBegin =>
      s.(frames := below + [if s.signalled then HKill(0) else HRecord])
    case HRecord => s.(signalled := true, frames := below + [HTerm(0)])
    case HKill(i) =>
      if i >= |s.children| then s.(frames := below)
      else s.(frames := below + [if MaySignal(s, i) then HKillIssue(i) else HKill(i + 1)])
    case HKillIssue(i) =>
      if i >= |s.children| then s else Issue(s, i, KILL).(frames := below + [HKill(i + 1)])
    case HTerm(i) =>
      if i >= |s.children| then s.(frames := below)
      else s.(frames := below + [if MaySignal(s, i) then HMark(i) else HTerm(i + 1)])
    case HMark(i) =>
      if i >= |s.children| then s
      else Update(s, i, s.children[i].(interrupted := true)).(frames := below + [HGuard(i)])
    case HGuard(i) => s.(frames := below + [if MaySignal(s, i) then HIssue(i) else HArm(i)])
    case HIssue(i) =>
      if i >= |s.children| then s else Issue(s, i, TERM).(frames := below + [HArm(i)])
    case HArm(i) => s.(frames := below + [HTerm(i + 1)])
  }

  function HandlerMove(s: State, raises: bool, cleanupMayRaise: bool): State {
    if s.frames == [] || Over(s.pc) then s
    else if raises && CanRaise(s, cleanupMayRaise) then Raise(s)
    else CancelStep(s, s.frames[|s.frames| - 1], s.frames[..|s.frames| - 1])
  }

  function Next(cleanupMayRaise: bool, s: State, e: Event): State {
    match e
    case Step(ch) => MainStep(s, ch, cleanupMayRaise)
    case Interrupt => if Over(s.pc) then s else s.(frames := s.frames + [HBegin])
    case HandlerStep(raises) => HandlerMove(s, raises, cleanupMayRaise)
  }

  function Run(cleanupMayRaise: bool, s: State, es: seq<Event>): State {
    if es == [] then s else Next(cleanupMayRaise, Run(cleanupMayRaise, s, es[..|es| - 1]), es[|es| - 1])
  }
}
