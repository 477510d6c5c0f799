/** tools/process_supervisor.py: cancelling a batch reaches every child, and starts at most one more. */
module BatchCancel {
  import opened ProcessBatch

  predicate TermSent(sent: seq<Sent>, i: nat) { Sent(i, TERM, true) in sent || Sent(i, TERM, false) in sent }

  /** The child is marked as interrupted and its group was sent TERM. */
  predicate Told(s: State, i: nat)
    requires i < |s.children|
  {
    s.children[i].interrupted && TermSent(s.sent, i)
  }

  /** Every started and unretired child before `n`, except `skip`, has been told. */
  ghost predicate AllTold(s: State, n: nat, skip: int) {
    forall i :: 0 <= i < |s.children| && i < n && i != skip && MaySignal(s, i) ==> Told(s, i)
  }

  /** The handler that walks over the children to terminate them. */
  predicate Walker(f: Frame) { f.HTerm? || f.HMark? || f.HGuard? || f.HIssue? || f.HArm? }

  ghost predicate Walking(frames: seq<Frame>) {
    exists k :: 0 <= k < |frames| && Walker(frames[k])
  }

  /** A handler that walks or is about to start walking. */
  predicate Walks(f: Frame) { Walker(f) || f.HRecord? }

  /**
   * One walk at a time: several handlers may have passed the test for a signal, but whoever is
   * entered once a walk has begun finds the signal recorded.
   */
  ghost predicate OneWalker(frames: seq<Frame>) {
    forall j, k :: 0 <= j < k < |frames| && Walker(frames[j]) ==> !Walks(frames[k])
  }

  /** A walker has told all children before its own, and marked its own before signalling it. */
  ghost predicate WalkedSoFar(f: Frame, s: State) {
    Walker(f) ==>
      AllTold(s, if f.HArm? then f.child + 1 else f.child, -1)
      && (!f.HTerm? && !f.HArm? ==> MaySignal(s, f.child))
      && (f.HGuard? || f.HIssue? ==> s.children[f.child].interrupted)
  }

  ghost predicate Walked(s: State) {
    forall k :: 0 <= k < |s.frames| ==> WalkedSoFar(s.frames[k], s)
  }

  predicate Launching(pc: Pc) { pc.Launch? && !pc.launch.LTop? && !pc.launch.LPopen? && !pc.launch.LArm? }

  /** With the signal recorded and the walk over, only a child that is just being started may not have been told. */
  ghost predicate Reached(s: State) {
    s.signalled && !Walking(s.frames) && (s.pc.Turn? || s.pc.Pick? || s.pc.Poll? || s.pc.Launch?) ==>
      AllTold(s, |s.children|, if Launching(s.pc) then s.pc.child else -1)
  }

  /** A child is marked before the launch signals it. */
  ghost predicate MarkedFirst(s: State) {
    s.pc.Launch? && !s.pc.launch.LTop? ==>
      s.pc.child < |s.children| && (s.pc.launch.LGuard? || s.pc.launch.LIssue? ==> s.children[s.pc.child].interrupted)
  }

  /** At most one child is started after the signal was recorded. */
  ghost predicate OneLate(s: State) {
    s.late <= 1 && (s.late == 1 ==> s.signalled) && (s.pc.Launch? && s.pc.launch.LPopen? ==> s.late == 0)
  }

  ghost predicate Cancelled(s: State) {
    && OneLate(s) && Reached(s) && Walked(s) && OneWalker(s.frames)
    && (Walking(s.frames) ==> s.signalled)
    && MarkedFirst(s)
  }

  // ---- telling is never undone ----

  /** From `s` to `t` no signal or mark is lost, and no child but `skip` becomes one to be told. */
  ghost predicate Grows(s: State, t: State, skip: int) {
    && |t.children| == |s.children| && s.sent <= t.sent
    && forall i :: 0 <= i < |s.children| ==>
         && (s.children[i].interrupted ==> t.children[i].interrupted)
         && (i != skip && MaySignal(t, i) ==> MaySignal(s, i))
  }

  lemma ToldStays(s: State, t: State, n: nat, skip: int)
    requires AllTold(s, n, skip) && Grows(s, t, skip)
    ensures AllTold(t, n, skip)
  {}

  lemma IssueTells(s: State, i: nat)
    requires i < |s.children|
    ensures TermSent(Issue(s, i, TERM).sent, i)
  {}

  // ---- the main program ----

  lemma Quiet()
    ensures !Walking([]) && OneWalker([])
  {}

  lemma LaunchGrows(s: State, i: nat, p: LaunchPc)
    ensures var t := LaunchStep(s, i, p);
            Grows(s, t, if p.LPopen? then i else -1) && t.frames == s.frames && t.signalled == s.signalled
  {}

  lemma LaunchReaches(s: State, i: nat, p: LaunchPc)
    requires Cancelled(s) && s.pc == Launch(i, p) && s.frames == []
    ensures var t := LaunchStep(s, i, p); OneLate(t) && MarkedFirst(t)
  {}

  lemma LaunchTells(s: State, i: nat, p: LaunchPc)
    requires Cancelled(s) && s.pc == Launch(i, p) && s.frames == []
    ensures Reached(LaunchStep(s, i, p))
  {
    hide Told, Grows;
    Quiet();
    var t := LaunchStep(s, i, p);
    LaunchGrows(s, i, p);
    if s.signalled && i < |s.children| {
      if p.LPopen? {
        GrowsLess(s, t, i);
        SkipMore(s, |s.children|, i);
        ToldStays(s, t, |s.children|, i);
      } else if p.LTop? || p.LArm? {
        ToldStays(s, t, |s.children|, -1);
      } else {
        GrowsLess(s, t, i);
        ToldStays(s, t, |s.children|, i);
        if p.LIssue? { IssueTells(s, i); }
        if p.LGuard? || p.LIssue? { LastTold(s, t, i, p); }
      }
    } else if s.signalled {
      ToldStays(s, t, |s.children|, -1);
    }
  }

  lemma LastTold(s: State, t: State, i: nat, p: LaunchPc)
    requires i < |s.children| && t == LaunchStep(s, i, p) && AllTold(t, |s.children|, i) && s.children[i].interrupted
    requires p.LGuard? || p.LIssue?
    ensures t.pc == Launch(i, LArm) ==> AllTold(t, |s.children|, -1)
  {}

  lemma GrowsLess(s: State, t: State, i: nat)
    requires Grows(s, t, i) || Grows(s, t, -1)
    ensures Grows(s, t, i)
  {}

  lemma SkipMore(s: State, n: nat, i: nat)
    requires AllTold(s, n, -1)
    ensures AllTold(s, n, i)
  {}

  lemma PollGrows(s: State, i: nat, p: PollPc, todo: set<nat>, ch: Choice)
    requires s.frames == [] && s.pc == Poll(i, p, todo)
    ensures var t := PollStep(s, i, p, todo, ch);
            Grows(s, t, -1) && t.frames == [] && t.signalled == s.signalled && t.late == s.late && !t.pc.Launch?
  {}

  lemma CleanGrows(s: State, i: nat, p: CleanPc)
    requires s.pc == Cleanup(i, p)
    ensures var t := CleanStep(s, i, p);
            Grows(s, t, -1) && t.frames == s.frames && t.signalled == s.signalled && t.late == s.late && !t.pc.Launch?
  {}

  /** Past the launch phase nothing is lost either. */
  lemma LaterGrows(s: State, ch: Choice, may: bool)
    requires s.frames == [] && !s.pc.Launch?
    ensures var t := MainStep(s, ch, may);
            Grows(s, t, -1) && t.frames == [] && t.signalled == s.signalled && t.late == s.late && !t.pc.Launch?
  {
    hide PollStep, CleanStep;
    match s.pc
    case Poll(i, p, todo) => PollGrows(s, i, p, todo, ch);
    case Cleanup(i, p) => CleanGrows(s, i, p);
    case _ =>
  }

  /** Only the exception path and the finally clause lead out of the turns, for good. */
  lemma LaterPhase(s: State, ch: Choice, may: bool)
    requires s.pc.Cleanup? || s.pc.Final? || Over(s.pc)
    ensures var t := MainStep(s, ch, may); t.pc.Cleanup? || t.pc.Final? || Over(t.pc)
  {}

  lemma MainReaches(s: State, ch: Choice, may: bool)
    requires Cancelled(s)
    ensures Cancelled(MainStep(s, ch, may))
  {
    hide LaunchStep, Walking, OneWalker, AllTold, Grows;
    Quiet();
    if s.frames == [] && s.pc.Launch? {
      var i, p := s.pc.child, s.pc.launch;
      LaunchReaches(s, i, p);
      LaunchTells(s, i, p);
      LaunchGrows(s, i, p);
    } else if s.frames == [] {
      hide MainStep;
      var t := MainStep(s, ch, may);
      LaterGrows(s, ch, may);
      if s.pc.Cleanup? || s.pc.Final? || Over(s.pc) {
        LaterPhase(s, ch, may);
      } else if s.signalled {
        ToldStays(s, t, |s.children|, -1);
        SameCount(s, t);
      }
    }
  }

  lemma SameCount(s: State, t: State)
    requires Grows(s, t, -1)
    ensures |t.children| == |s.children|
  {}

  // ---- the handler ----

  lemma WalkingTop(below: seq<Frame>, top: Frame)
    ensures Walking(below + [top]) <==> Walking(below) || Walker(top)
    ensures OneWalker(below + [top]) <==> OneWalker(below) && !(Walking(below) && Walks(top))
  {
    var all := below + [top];
    assert all[|below|] == top;
    assert forall k :: 0 <= k < |below| ==> all[k] == below[k];
    if Walking(below) {
      var k :| 0 <= k < |below| && Walker(below[k]);
      assert Walker(all[k]) && k < |below|;
    }
    if OneWalker(below) && !(Walking(below) && Walks(top)) {
      forall j, k | 0 <= j < k < |all| && Walker(all[j]) ensures !Walks(all[k]) {
        assert Walker(below[j]);
      }
    }
  }

  /** A handler's statement loses nothing and makes no child one to be told. */
  lemma CancelGrows(s: State, top: Frame, below: seq<Frame>)
    ensures var t := CancelStep(s, top, below);
            Grows(s, t, -1) && t.pc == s.pc && t.late == s.late && (s.signalled ==> t.signalled)
            && forall i :: 0 <= i < |s.children| ==> (MaySignal(t, i) <==> MaySignal(s, i))
  {}

  /** What the outer handlers have done stays done. */
  lemma WalkedStays(f: Frame, s: State, t: State)
    requires WalkedSoFar(f, s) && Grows(s, t, -1)
    requires forall i :: 0 <= i < |s.children| ==> (MaySignal(t, i) <==> MaySignal(s, i))
    ensures WalkedSoFar(f, t)
  {}

  /** The walker steps on to the next child only when this one is told or need not be. */
  lemma WalkerSteps(s: State, top: Frame, below: seq<Frame>)
    requires Walker(top) && WalkedSoFar(top, s)
    ensures var t := CancelStep(s, top, below);
            if t.frames == below then AllTold(t, |t.children|, -1)
            else exists f :: t.frames == below + [f] && Walker(f) && WalkedSoFar(f, t)
  {
    var t, i := CancelStep(s, top, below), top.child;
    CancelGrows(s, top, below);
    ToldStays(s, t, i, -1);
    if top.HIssue? { IssueTells(s, i); }
    hide TermSent;
    assert forall f :: below + [f] != below;
  }

  /** The other statements leave every walk where it is, or begin one. */
  lemma OthersStep(s: State, top: Frame, below: seq<Frame>)
    requires !Walker(top)
    ensures var t := CancelStep(s, top, below);
            || t == s || (t.frames == below && t.signalled == s.signalled)
            || (exists f :: t.frames == below + [f] && !Walker(f) && t.signalled == s.signalled
                              && (f.HRecord? ==> !s.signalled))
            || (top.HRecord? && t.signalled && t.frames == below + [HTerm(0)])
  {}

  lemma StepsBelow(s: State, top: Frame, below: seq<Frame>)
    requires Cancelled(s) && s.frames == below + [top]
    ensures var t := CancelStep(s, top, below); forall k :: 0 <= k < |below| ==> WalkedSoFar(below[k], t)
  {
    hide WalkedSoFar, Reached, OneLate, CancelStep, Grows;
    CancelGrows(s, top, below);
    forall k | 0 <= k < |below| ensures WalkedSoFar(below[k], CancelStep(s, top, below)) {
      assert s.frames[k] == below[k];
      WalkedStays(below[k], s, CancelStep(s, top, below));
    }
  }

  lemma WalkedTop(below: seq<Frame>, f: Frame, t: State)
    requires forall k :: 0 <= k < |below| ==> WalkedSoFar(below[k], t)
    ensures t.frames == below ==> Walked(t)
    ensures t.frames == below + [f] && WalkedSoFar(f, t) ==> Walked(t)
  {}

  /** A walk under way, or ended with everybody told. */
  lemma WalkerReaches(s: State, top: Frame, below: seq<Frame>)
    requires Cancelled(s) && s.frames == below + [top] && Walker(top)
    ensures Cancelled(CancelStep(s, top, below))
  {
    hide CancelStep, Walking, OneWalker, Grows;
    var t := CancelStep(s, top, below);
    assert s.frames[|below|] == top;
    WalkingTop(below, top);
    CancelGrows(s, top, below);
    SameCount(s, t);
    MarkStays(s, t);
    StepsBelow(s, top, below);
    WalkerSteps(s, top, below);
    if t.frames == below {
      hide WalkedSoFar;
      WalkedTop(below, top, t);
      EndsTold(t);
    } else {
      hide WalkedSoFar;
      var f :| t.frames == below + [f] && Walker(f) && WalkedSoFar(f, t);
      WalkedTop(below, f, t);
      WalkingTop(below, f);
    }
  }

  lemma EndsTold(t: State)
    requires AllTold(t, |t.children|, -1)
    ensures Reached(t)
  {}

  lemma MarkStays(s: State, t: State)
    requires MarkedFirst(s) && Grows(s, t, -1) && t.pc == s.pc
    ensures MarkedFirst(t)
  {}

  /** Other handlers neither begin a walk inside a walk nor disturb what was told. */
  lemma OthersReach(s: State, top: Frame, below: seq<Frame>)
    requires Cancelled(s) && s.frames == below + [top] && !Walker(top)
    ensures Cancelled(CancelStep(s, top, below))
  {
    hide CancelStep, Walking, OneWalker, Grows, AllTold;
    var t := CancelStep(s, top, below);
    WalkingTop(below, top);
    WalkingTop(below, HTerm(0));
    CancelGrows(s, top, below);
    SameCount(s, t);
    MarkStays(s, t);
    StepsBelow(s, top, below);
    OthersStep(s, top, below);
    NoneBefore(t);
    if !Walking(below) && s.signalled && (s.pc.Turn? || s.pc.Pick? || s.pc.Poll? || s.pc.Launch?) {
      ToldStaysBut(s, t, if Launching(s.pc) then s.pc.child else -1);
    }
    WalkedTop(below, HTerm(0), t);
    if f :| t.frames == below + [f] && !Walker(f) && t.signalled == s.signalled && (f.HRecord? ==> !s.signalled) {
      WalkingTop(below, f);
      WalkedTop(below, f, t);
    }
  }

  lemma NoneBefore(s: State)
    ensures AllTold(s, 0, -1)
  {}

  lemma ToldStaysBut(s: State, t: State, skip: int)
    requires AllTold(s, |s.children|, skip) && Grows(s, t, -1)
    ensures AllTold(t, |s.children|, skip)
  {}

  lemma NextReaches(may: bool, s: State, e: Event)
    requires Cancelled(s)
    ensures Cancelled(Next(may, s, e))
  {
    hide MainStep, CancelStep, Walking, OneWalker, WalkedSoFar, AllTold, Raise;
    match e
    case Step(ch) => MainReaches(s, ch, may);
    case Interrupt =>
      WalkingTop(s.frames, HBegin);
      InterruptReaches(s, s.(frames := s.frames + [HBegin]));
    case HandlerStep(raises) =>
      RaiseReaches(s);
      if s.frames != [] {
        var n := |s.frames| - 1;
        assert s.frames == s.frames[..n] + [s.frames[n]];
        if Walker(s.frames[n]) {
          WalkerReaches(s, s.frames[n], s.frames[..n]);
        } else {
          OthersReach(s, s.frames[n], s.frames[..n]);
        }
      }
  }

  lemma RaiseReaches(s: State)
    requires Cancelled(s)
    ensures Cancelled(Raise(s))
  {}

  lemma InterruptReaches(s: State, t: State)
    requires Cancelled(s) && t == s.(frames := s.frames + [HBegin])
    ensures Cancelled(t)
  {
    hide Walking, OneWalker, AllTold;
    WalkingTop(s.frames, HBegin);
    assert Grows(s, t, -1);
    forall k | 0 <= k < |s.frames| ensures WalkedSoFar(s.frames[k], t) { WalkedStays(s.frames[k], s, t); }
    WalkedTop(s.frames, HBegin, t);
    if Reached(s) && s.signalled && !Walking(t.frames) && (s.pc.Turn? || s.pc.Pick? || s.pc.Poll? || s.pc.Launch?) {
      ToldStaysBut(s, t, if Launching(s.pc) then s.pc.child else -1);
    }
  }

  lemma {:induction false} RunReaches(may: bool, n: nat, es: seq<Event>)
    ensures Cancelled(Run(may, Init(n), es))
  {
    hide Next, Cancelled;
    if es == [] {
      InitReaches(n);
    } else {
      RunReaches(may, n, es[..|es| - 1]);
      NextReaches(may, Run(may, Init(n), es[..|es| - 1]), es[|es| - 1]);
    }
  }

  lemma InitReaches(n: nat)
    ensures Cancelled(Init(n))
  {}

  /**
   * No child escapes cancellation. In every run, once the signal is recorded and no handler is
   * active, each child that is supervised and still unretired is marked as interrupted and its
   * group was sent TERM; and at most one child was started after the signal was recorded.
   */
  lemma NoChildEscapes(may: bool, n: nat, es: seq<Event>)
    ensures var s := Run(may, Init(n), es);
            && s.late <= 1
            && (s.signalled && s.frames == [] && (s.pc.Turn? || s.pc.Pick? || s.pc.Poll?) ==>
                  forall i :: 0 <= i < |s.children| && s.children[i].spawned && !s.children[i].retired ==>
                    s.children[i].interrupted && TermSent(s.sent, i))
  {
    hide Run;
    RunReaches(may, n, es);
    Quiet();
    var s := Run(may, Init(n), es);
    if s.signalled && s.frames == [] && (s.pc.Turn? || s.pc.Pick? || s.pc.Poll?) {
      forall i | 0 <= i < |s.children| && s.children[i].spawned && !s.children[i].retired
        ensures s.children[i].interrupted && TermSent(s.sent, i)
      {
        assert MaySignal(s, i);
        assert Told(s, i);
      }
    }
  }
}
