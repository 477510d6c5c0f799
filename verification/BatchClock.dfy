/**
 * tools/process_supervisor.py: run_process_batch with its clock. The decisions that the plain
 * step machine leaves open are now taken from the deadlines, which the statements set.
 */
module BatchClock {
  import opened Wrappers
  import opened ProcessBatch
  import opened BatchCustody

  /**
   * The per-index lists `started`, `deadlines`, `timed_out`, `termination_deadlines` and
   * `hard_stop_deadlines`; `since` is the turn that first armed the grace deadline.
   */
  datatype Clock = Clock(
    started: real, deadline: real, timedOut: bool, grace: Option<real>, hard: Option<real>, since: Option<real>)

  /** One timeout per command, grace, post-kill allowance, and the longest loop turn. */
  datatype Config = Config(timeouts: seq<real>, grace: real, reap: real, longest: real)

  ghost predicate ValidConfig(c: Config) { c.grace > 0.0 && c.reap > 0.0 && c.longest >= 0.0 }

  /**
   * `now` is the reading of the current turn, `entered` that of entering the loop, `signalAt` the
   * handler's; `again` tells that a signal arrived while one was recorded.
   */
  datatype Timed = Timed(
    base: State, clocks: seq<Clock>, clock: real, now: real, entered: real, signalAt: real, again: bool)

  datatype TimedEvent = Do(event: Event) | Tick(dt: real)

  function TimedInit(c: Config, clock: real): Timed {
    Timed(Init(|c.timeouts|), seq(|c.timeouts|, i => NewClock(clock)), clock, clock, clock, clock, false)
  }

  function NewClock(clock: real): Clock { Clock(clock, clock, false, None, None, None) }

  predicate Due(t: Option<real>, now: real) { t.Some? && now >= t.value }

  /** Statements of the polling loop. */
  predicate Polling(pc: Pc) { pc.Turn? || pc.Pick? || pc.Poll? }

  /** The answers that the deadlines dictate. */
  function Timely(t: Timed, ch: Choice): Choice {
    if t.base.pc.Poll? && t.base.pc.child < |t.clocks| then
      var a := t.clocks[t.base.pc.child];
      ch.(graceOver := Due(a.grace, t.now), timedOut := a.grace.None? && !a.timedOut && t.now >= a.deadline,
          overdue := Due(a.hard, t.now))
    else ch
  }

  function Set(t: Timed, i: nat, a: Clock): Timed {
    if i < |t.clocks| then t.(clocks := t.clocks[i := a]) else t
  }

  function At(t: Timed, i: nat): Clock {
    if i < |t.clocks| then t.clocks[i] else NewClock(t.clock)
  }

  /** What the next statement of the main program does to the deadlines. */
  function MainClock(c: Config, t: Timed): Timed {
    match t.base.pc
    case Launch(i, p) =>
      if i >= |t.base.children| || (p.LTop? && t.base.signalled) then t.(now := t.clock, entered := t.clock)
      else if p.LSubmit? && i < |c.timeouts| then Set(t, i,
                                                      At(t, i).(started := t.clock,
                                                                deadline := t.clock + c.timeouts[i]))
      else if p.LArm? then Set(t, i, Armed(At(t, i), t.now, t.clock + c.grace))
      else t
    case Turn => t.(now := t.clock)
    case Poll(i, p, _) => Set(t, i, PollClock(c, At(t, i), p, t.now))
    case _ => t
  }

  function Armed(a: Clock, now: real, until: real): Clock {
    a.(grace := Some(until), since := if a.since.None? then Some(now) else a.since)
  }

  function PollClock(c: Config, a: Clock, p: PollPc, now: real): Clock {
    match p
    case TFlag => a.(timedOut := true)
    case TArm => Armed(a, now, now + c.grace)
    case KClear => a.(grace := None)
    case KHard => a.(hard := Some(now + c.reap))
    case _ => a
  }

  /** What the next statement of the innermost handler does to the deadlines. */
  function HandlerClock(c: Config, t: Timed, top: Frame): Timed {
    match top
    case HRecord => t.(signalAt := t.clock)
    case HArm(i) => Set(t, i, Armed(At(t, i), t.now, t.signalAt + c.grace))
    case HBegin => t.(again := t.again || t.base.signalled)
    case _ => t
  }

  function TimedStep(c: Config, may: bool, t: Timed, ch: Choice): Timed {
    var b := MainStep(t.base, Timely(t, ch), may);
    if t.base.frames != [] || Over(t.base.pc) || (ch.raises && CanRaise(t.base, may)) then t.(base := b)
    else MainClock(c, t).(base := b)
  }

  function TimedHandler(c: Config, may: bool, t: Timed, raises: bool): Timed {
    var b := HandlerMove(t.base, raises, may);
    if t.base.frames == [] || Over(t.base.pc) || (raises && CanRaise(t.base, may)) then t.(base := b)
    else HandlerClock(c, t, t.base.frames[|t.base.frames| - 1]).(base := b)
  }

  /** One turn of the loop, visits and handlers included, takes at most the configured time. */
  function Elapse(c: Config, t: Timed, dt: real): Timed {
    if dt < 0.0 || (Polling(t.base.pc) && t.clock + dt > t.now + c.longest) then t else t.(clock := t.clock + dt)
  }

  function TimedNext(c: Config, may: bool, t: Timed, e: TimedEvent): Timed {
    match e
    case Do(Step(ch)) => TimedStep(c, may, t, ch)
    case Do(Interrupt) => t.(base := Next(may, t.base, Interrupt))
    case Do(HandlerStep(raises)) => TimedHandler(c, may, t, raises)
    case Tick(dt) => Elapse(c, t, dt)
  }

  function TimedRun(c: Config, may: bool, t: Timed, es: seq<TimedEvent>): Timed {
    if es == [] then t else TimedNext(c, may, TimedRun(c, may, t, es[..|es| - 1]), es[|es| - 1])
  }

  // ---- every timed run is a run ----

  /** The event of the plain machine that a timed event amounts to. */
  function Plain(t: Timed, e: Event): Event {
    if e.Step? then Step(Timely(t, e.choice)) else e
  }

  lemma PlainStep(c: Config, may: bool, t: Timed, e: TimedEvent)
    ensures e.Do? ==> TimedNext(c, may, t, e).base == Next(may, t.base, Plain(t, e.event))
    ensures e.Tick? ==> TimedNext(c, may, t, e).base == t.base
  {
    hide MainStep, HandlerMove, Timely, MainClock, HandlerClock;
  }

  /** The clock only restricts the plain machine, so all that holds in its runs holds with the clock. */
  lemma {:induction false} TimedRunIsRun(c: Config, may: bool, clock: real, es: seq<TimedEvent>)
    ensures exists bs :: TimedRun(c, may, TimedInit(c, clock), es).base == Run(may, Init(|c.timeouts|), bs)
  {
    hide Next, TimedNext;
    if es == [] {
      assert Run(may, Init(|c.timeouts|), []) == Init(|c.timeouts|);
    } else {
      var t, e := TimedRun(c, may, TimedInit(c, clock), es[..|es| - 1]), es[|es| - 1];
      TimedRunIsRun(c, may, clock, es[..|es| - 1]);
      var bs :| t.base == Run(may, Init(|c.timeouts|), bs);
      PlainStep(c, may, t, e);
      if e.Do? {
        var more := bs + [Plain(t, e.event)];
        assert more[..|more| - 1] == bs;
        assert Run(may, Init(|c.timeouts|), more) == Next(may, t.base, Plain(t, e.event));
      }
    }
  }

  /** In particular custody holds in every timed run whose cleanup loop cannot fail. */
  lemma TimedCustody(c: Config, clock: real, es: seq<TimedEvent>)
    ensures AllHeld(TimedRun(c, false, TimedInit(c, clock), es).base.sent)
  {
    TimedRunIsRun(c, false, clock, es);
    var bs :| TimedRun(c, false, TimedInit(c, clock), es).base == Run(false, Init(|c.timeouts|), bs);
    RunKeeps(|c.timeouts|, bs);
  }
}
