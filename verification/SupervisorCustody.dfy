/** tools/process_supervisor.py: custody of the process group in every run of run_process. */
module SupervisorCustody {
  import opened Wrappers
  import opened Capture
  import opened ProcessSupervisor

  /** Every group signal so far was issued while the leader was held. */
  ghost predicate AllHeld(g: Group) {
    forall i :: 0 <= i < |g.signals| ==> g.signals[i].leaderHeld
  }

  /** What the position of the main program says about the group. */
  ghost predicate Placed(pc: Pc, g: Group) {
    && (g.reaped ==> g.retired)
    && match pc
       case Start(p) => !g.retired && (g.spawned <==> !p.Spawn?)
       case Settling(t) => g.spawned && (g.retired <==> t.Reap? || t.Post?) && (g.reaped <==> t.Post?)
       case Failing(x) =>
         if x.XGuard? then true else g.spawned && (g.retired <==> x.XReap?)
       case Returned => g.spawned && g.retired && g.reaped
       case Raised => true
       case _ => g.spawned && !g.retired
  }

  predicate Issuing(f: Frame) { f.KillIssue? || f.TermIssue? }

  /** Handlers past their guard are only active while the group may be signalled. */
  ghost predicate HandlersGuarded(frames: seq<Frame>, g: Group) {
    forall i :: 0 <= i < |frames| && Issuing(frames[i]) ==> MaySignal(g)
  }

  /**
   * The custody invariant. A reaped leader has a retired group; the statements that signal
   * are reached only with the leader spawned and the group unretired, in the main program
   * and in every active handler.
   */
  ghost predicate Custody(s: State) {
    AllHeld(s.group) && Placed(s.pc, s.group) && HandlersGuarded(s.frames, s.group)
  }

  lemma IssueHeld(g: Group, signum: Signum)
    requires AllHeld(g) && g.spawned && !g.reaped
    ensures AllHeld(Issue(g, signum))
  {}

  /** One statement of the main program, no handler being active. */
  lemma MainKeepsCustody(c: Config, s: State, ch: Choice)
    requires AllHeld(s.group) && Placed(s.pc, s.group)
    ensures var t := MainStep(c, s, ch); AllHeld(t.group) && Placed(t.pc, t.group)
  {}

  lemma MainAndHandlers(c: Config, s: State, ch: Choice)
    ensures s.frames != [] ==> MainStep(c, s, ch) == s
    ensures s.frames == [] ==> MainStep(c, s, ch).frames == []
  {}

  /** One statement of a handler: it signals only past its guard and never retires or reaps. */
  lemma CancelKeepsCustody(c: Config, s: State, top: Frame, below: seq<Frame>)
    requires AllHeld(s.group) && Placed(s.pc, s.group) && HandlersGuarded(below + [top], s.group)
    ensures var t := CancelStep(c, s, top, below);
            AllHeld(t.group) && Placed(t.pc, t.group) && HandlersGuarded(t.frames, t.group)
  {
    assert (below + [top])[|below|] == top;
    assert forall i :: 0 <= i < |below| ==> (below + [top])[i] == below[i];
    if Issuing(top) {
      IssueHeld(s.group, TERM);
      IssueHeld(s.group, KILL);
    }
  }

  lemma NextKeepsCustody(c: Config, s: State, e: Event)
    requires Custody(s)
    ensures Custody(Next(c, s, e))
  {
    hide MainStep, CancelStep, AllHeld, Placed;
    match e
    case Step(ch) =>
      MainKeepsCustody(c, s, ch);
      MainAndHandlers(c, s, ch);
    case HandlerStep(raises) =>
      if s.frames != [] && !Over(s.pc) {
        var n := |s.frames| - 1;
        assert s.frames == s.frames[..n] + [s.frames[n]];
        if raises { RaiseKeeps(s); } else { CancelKeepsCustody(c, s, s.frames[n], s.frames[..n]); }
      }
    case Interrupt(signum) =>
      var more := s.frames + [Begin(signum)];
      assert forall i :: 0 <= i < |s.frames| ==> more[i] == s.frames[i];
    case Tick(dt) =>
  }

  lemma RaiseKeeps(s: State)
    requires Placed(s.pc, s.group)
    ensures Placed(Raise(s).pc, s.group)
  {}

  /**
   * Custody safety over all interleavings: whatever the events, no group signal is ever
   * issued once the leader has been reaped, and a run returns only after reaping it.
   */
  lemma {:induction false} CustodySafety(c: Config, clock: real, es: seq<Event>)
    ensures var s := Run(c, Init(clock), es);
            && Custody(s) && AllHeld(s.group)
            && (s.pc.Returned? ==> s.group.retired && s.group.reaped)
  {
    hide Next, AllHeld;
    if es == [] {
      NothingSignalled(clock);
    } else {
      CustodySafety(c, clock, es[..|es| - 1]);
      NextKeepsCustody(c, Run(c, Init(clock), es[..|es| - 1]), es[|es| - 1]);
    }
  }

  lemma NothingSignalled(clock: real)
    ensures Custody(Init(clock))
  {}

  // ---- capture inside the loop ----

  lemma {:induction false} ReadChunksIsReadAll(limit: Option<nat>, before: seq<Chunk>, chunks: seq<Chunk>)
    ensures ReadChunks(limit, ReadAll(limit, before), chunks) == ReadAll(limit, before + chunks)
  {
    hide Read;
    if chunks == [] {
      assert before + chunks == before;
    } else {
      var n, all := |chunks| - 1, before + chunks;
      ReadChunksIsReadAll(limit, before, chunks[..n]);
      assert all[..|all| - 1] == before + chunks[..n] && all[|all| - 1] == chunks[n];
    }
  }

  /** What was captured is the bounded capture of what was received; past the decode, overflow counts as an abort. */
  ghost predicate Reported(c: Config, s: State) {
    && s.output.captured == ReadAll(c.limit, s.output.received)
    && ((s.pc.Returned? || (s.pc.Settling? && !s.pc.settle.Decode?)) && s.output.captured.overflow ==> s.alarm.aborted)
  }

  lemma WaitReports(c: Config, o: Output, ch: Choice)
    requires o.captured == ReadAll(c.limit, o.received)
    ensures WaitForOutput(c, o, ch).captured == ReadAll(c.limit, WaitForOutput(c, o, ch).received)
  {
    hide ReadAll, ReadChunks;
    ReadChunksIsReadAll(c.limit, o.received, ch.chunks);
  }

  lemma MainReports(c: Config, s: State, ch: Choice)
    requires Reported(c, s)
    ensures Reported(c, MainStep(c, s, ch))
  {
    hide ReadAll, WaitForOutput, Armed, Issue;
    WaitReports(c, s.output, ch);
    match s.pc
    case Start(p) =>
    case Loop(l) =>
    case Killing(k) =>
    case Arming(cause, p) =>
    case Settling(t) =>
    case Failing(x) =>
    case _ =>
  }

  lemma NextReports(c: Config, s: State, e: Event)
    requires Reported(c, s)
    ensures Reported(c, Next(c, s, e))
  {
    hide ReadAll, MainStep, Issue;
    if e.Step? { MainReports(c, s, e.choice); }
  }

  /** In every run the capture is exact, and a returned result with overflow is marked as aborted. */
  lemma {:induction false} CaptureThroughout(c: Config, clock: real, es: seq<Event>)
    ensures var s := Run(c, Init(clock), es);
            && s.output.captured == ReadAll(c.limit, s.output.received)
            && (s.pc.Returned? && s.output.captured.overflow ==> s.alarm.aborted)
  {
    RunReports(c, clock, es);
  }

  lemma {:induction false} RunReports(c: Config, clock: real, es: seq<Event>)
    ensures Reported(c, Run(c, Init(clock), es))
  {
    hide Next, ReadAll;
    if es == [] {
      NothingRead(c.limit);
    } else {
      RunReports(c, clock, es[..|es| - 1]);
      NextReports(c, Run(c, Init(clock), es[..|es| - 1]), es[|es| - 1]);
    }
  }

  lemma NothingRead(limit: Option<nat>)
    ensures ReadAll(limit, []) == NOTHING
  {}
}
