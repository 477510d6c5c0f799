/** tools/gates/run.py and status_line.py: from a finished process to a gate record. */
module GateRunner {
  import opened Wrappers
  import opened GateRecord

  /** The identity of a source tree; `rest` is whatever else the identity records. */
  datatype Source = Source(head: string, tree: string, paths: string, dirty: bool, rest: string)

  /** A settled gate process: its exit code if it settled, the interrupt, and its stdout lines. */
  datatype Process = Process(code: Option<int>, interrupted: Option<int>, timedOut: bool, lines: seq<string>)

  /**
   * The text-level judgements, kept abstract: whether a final status line satisfies a gate's
   * requirement, and whether an execution report supports a gate's line on a given source.
   */
  datatype Judges<!E> = Judges(
    verdict: (string, string) -> bool, report: (string, Option<E>, Option<string>, Source) -> bool)

  /** Gates whose PASS needs an execution report. */
  const REPORTS: set<string> := {"test", "py-test"}

  /** final_status_line: the last line that starts with the marker and a space. */
  function FinalLine(marker: string, lines: seq<string>): (r: Option<string>)
    ensures r.Some? ==> marker + " " <= r.value
  {
    if lines == [] then None
    else if marker + " " <= lines[|lines| - 1] then Some(lines[|lines| - 1])
    else FinalLine(marker, lines[..|lines| - 1])
  }

  /** Line i is the last one that starts with the marker and a space. */
  ghost predicate LastMarked(marker: string, lines: seq<string>, i: int) {
    && 0 <= i < |lines| && marker + " " <= lines[i]
    && forall j :: i < j < |lines| ==> !(marker + " " <= lines[j])
  }

  /** The final status line is the last marked line, and absent exactly if no line is marked. */
  lemma {:induction false} FinalLineIsLast(marker: string, lines: seq<string>, line: string)
    ensures FinalLine(marker, lines) == Some(line) <==> exists i :: LastMarked(marker, lines, i) && lines[i] == line
    ensures FinalLine(marker, lines).None? <==> forall j :: 0 <= j < |lines| ==> !(marker + " " <= lines[j])
  {
    if lines != [] {
      var n := |lines| - 1;
      var before := lines[..n];
      FinalLineIsLast(marker, before, line);
      if marker + " " <= lines[n] {
        assert LastMarked(marker, lines, n);
        assert forall i :: LastMarked(marker, lines, i) ==> i == n;
      } else {
        assert forall i :: LastMarked(marker, lines, i) <==> LastMarked(marker, before, i);
        assert forall i :: 0 <= i < n ==> before[i] == lines[i];
      }
    }
  }

  /** status_line_qualifies. An explicitly null specification asks for nothing. */
  predicate Qualifies<E>(j: Judges<E>, g: Gate, lines: seq<string>) {
    g.statusLine.Line? ==>
      FinalLine(g.statusLine.marker, lines).Some? && j.verdict(g.id, FinalLine(g.statusLine.marker, lines).value)
  }

  /** The retained line qualifies on its own: later validation sees the same verdict as the run. */
  lemma RetainedLineQualifies<E>(j: Judges<E>, g: Gate, lines: seq<string>)
    requires g.statusLine.Line? && Qualifies(j, g, lines)
    ensures Qualifies(j, g, [FinalLine(g.statusLine.marker, lines).value])
  {}

  function ProcessStatus<E>(j: Judges<E>, g: Gate, p: Process): Status {
    if p.timedOut || p.interrupted.Some? then Fail
    else if p.code == Some(0) then (if Qualifies(j, g, p.lines) then Pass else NotRun)
    else if p.code == Some(2) && g.conditional then NotRun
    else Fail
  }

  /** gate_process_result; `evidence` is the execution report found on disk, if readable. */
  function GateProcessResult<E>(j: Judges<E>, g: Gate, p: Process, timeout: nat, evidence: Option<E>, observed: Source)
    : Record<E>
  {
    var status := ProcessStatus(j, g, p);
    var line := if !p.timedOut && g.statusLine.Line? then FinalLine(g.statusLine.marker, p.lines) else None;
    var r := Record(g.id, status, p.code, if p.code.Some? && p.code.value < 0 then Some(-p.code.value) else None,
                    p.timedOut, p.interrupted, Some(timeout), None, line, None);
    if status.Pass? && g.id in REPORTS then
      if evidence.Some? && j.report(g.id, evidence, line, observed) then r.(execution := evidence)
      else r.(status := NotRun, exitCode := None)
    else r
  }

  /** What became of one gate command: the supervisor raised, possibly after receiving a signal, or it settled. */
  datatype Attempted = Raised(signal: Option<int>) | Settled(process: Process)

  /** The signal that the supervisor received while it ran the command. */
  function Received(a: Attempted): Option<int> {
    if a.Raised? then a.signal else a.process.interrupted
  }

  /** run_gate: an exception becomes a failure without any mention of a signal. */
  function RunGate<E>(j: Judges<E>, g: Gate, a: Attempted, timeout: nat, evidence: Option<E>,
                      observed: Source): Record<E> {
    if a.Raised? then Bare<E>(g.id, Fail).(timeoutSeconds := Some(timeout))
    else GateProcessResult(j, g, a.process, timeout, evidence, observed)
  }

  /** Any record a run can leave about a gate while the source stays at `source`. */
  ghost predicate Produced<E(!new)>(j: Judges<E>, g: Gate, here: string, source: Source, r: Record<E>) {
    || r == Bare(g.id, Fail).(timeoutSeconds := r.timeoutSeconds)  // refused group, or the command could not start
    || (r == Bare(g.id, SkippedPlatform) && !Applicable(g, here))
    || (r.blockedBy.Some? && r == Unrun(g.id, r.blockedBy.value))
    || r == Exhausted(g.id)
    || (FromProcess(j, g, source, r) && Applicable(g, here))
  }

  ghost predicate FromProcess<E(!new)>(j: Judges<E>, g: Gate, source: Source, r: Record<E>) {
    exists p: Process, timeout: nat, evidence: Option<E> ::
      (p.interrupted.Some? ==> p.interrupted.value > 0) && r == GateProcessResult(j, g, p, timeout, evidence, source)
  }

  /** The line that a gate with a status line is judged by: the last marked line of its own output. */
  ghost predicate Verdict<E>(j: Judges<E>, g: Gate, lines: seq<string>, line: Option<string>) {
    if g.statusLine.Line? then
      exists i :: LastMarked(g.statusLine.marker, lines, i) && line == Some(lines[i]) && j.verdict(g.id, lines[i])
    else line.None?
  }

  /** What a produced PASS always carries. */
  lemma PassIsBacked<E(!new)>(j: Judges<E>, g: Gate, here: string, source: Source, r: Record<E>)
    requires Produced(j, g, here, source, r) && r.status.Pass?
    ensures r.id == g.id && r.exitCode == Some(0) && !r.timedOut && r.interrupted.None? && r.signal.None?
    ensures g.statusLine.Line? ==> r.statusLine.Some? && Qualifies(j, g, [r.statusLine.value])
    ensures !g.statusLine.Line? ==> r.statusLine.None?
    ensures g.id in REPORTS ==> j.report(g.id, r.execution, r.statusLine, source)
    ensures Applicable(g, here)
    ensures exists p: Process ::
              p.code == Some(0) && p.interrupted.None? && !p.timedOut && Verdict(j, g, p.lines, r.statusLine)
  {
    var p: Process, timeout: nat, evidence: Option<E> :|
      (p.interrupted.Some? ==> p.interrupted.value > 0) && r == GateProcessResult(j, g, p, timeout, evidence, source);
    if g.statusLine.Line? { FinalLineIsLast(g.statusLine.marker, p.lines, r.statusLine.value); }
    assert Verdict(j, g, p.lines, r.statusLine);
  }

  /**
   * The record of a settled process. It passes exactly if the process exited with 0, undisturbed
   * and in time, its last marked line satisfies the gate, and a required execution report supports
   * it; it counts as not run exactly if that line or report is missing, or if a conditional gate
   * exited with 2; everything else fails. The facts of the process are recorded as they are.
   */
  lemma GateVerdict<E>(j: Judges<E>, g: Gate, p: Process, timeout: nat, evidence: Option<E>, source: Source)
    ensures var r := GateProcessResult(j, g, p, timeout, evidence, source);
            var settled := !p.timedOut && p.interrupted.None?;
            var line := exists l :: Verdict(j, g, p.lines, l);
            var report := g.id in {"test", "py-test"} ==>
                            evidence.Some? && j.report(g.id, evidence, r.statusLine, source);
            && (r.status.Pass? <==> settled && p.code == Some(0) && line && report)
            && (r.status.NotRun? <==>
                  settled && ((p.code == Some(0) && !(line && report)) || (p.code == Some(2) && g.conditional)))
            && !r.status.SkippedPlatform? && r.id == g.id && r.timedOut == p.timedOut && r.interrupted == p.interrupted
            && r.timeoutSeconds == Some(timeout) && r.blockedBy.None?
            && (r.execution == if r.status.Pass? && g.id in {"test", "py-test"} then evidence else None)
            && (r.exitCode == if r.status.NotRun? && p.code == Some(0) && line then None else p.code)
            && (r.signal == if p.code.Some? && p.code.value < 0 then Some(-p.code.value) else None)
  {
    var r := GateProcessResult(j, g, p, timeout, evidence, source);
    if g.statusLine.Line? {
      var f := FinalLine(g.statusLine.marker, p.lines);
      FinalLineIsLast(g.statusLine.marker, p.lines, if f.Some? then f.value else "");
      assert Qualifies(j, g, p.lines) ==> Verdict(j, g, p.lines, f);
      forall l | Verdict(j, g, p.lines, l) ensures f.Some? && l == f {
        FinalLineIsLast(g.statusLine.marker, p.lines, l.value);
      }
    } else {
      assert Verdict(j, g, p.lines, None);
    }
  }
}
