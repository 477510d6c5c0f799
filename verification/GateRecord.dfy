/** tools/gates/run.py: inventory gates and the records a run leaves about them. */
module GateRecord {
  import opened Wrappers

  datatype Status = Pass | Fail | NotRun | SkippedPlatform

  /** Why a gate was not started. */
  datatype Blocker = Preflight(text: string) | Signal(signum: int) | ByGate(id: string)

  /** `parallel_group`: absent, a name, or a value of another type. */
  datatype Group = NoGroup | Named(name: string) | NotAName

  /** `status_line`: key absent, explicitly null, or a marker and a required token. */
  datatype StatusSpec = NoLine | NullLine | Line(marker: string, require_: string)

  datatype Gate = Gate(
    id: string, platforms: Option<seq<string>>, group: Group, conditional: bool, statusLine: StatusSpec,
    timeout: Option<nat>)

  /** One entry of a receipt's results. An absent `timed_out` reads as false. */
  datatype Record<Evidence> = Record(
    id: string, status: Status, exitCode: Option<int>, signal: Option<int>, timedOut: bool, interrupted: Option<int>,
    timeoutSeconds: Option<int>, blockedBy: Option<Blocker>, statusLine: Option<string>, execution: Option<Evidence>)

  const PARALLEL_GATE_LIMIT: nat := 4

  const PARALLEL_GROUP_MEMBERS: map<string, set<string>> := map[
    "static-independent" := {"fmt-check", "gates-inventory", "py-lint", "test-architecture", "semgrep", "deny"}]

  predicate Applicable(g: Gate, here: string) {
    g.platforms.None? || "any" in g.platforms.value || here in g.platforms.value
  }

  /** The gate asks for a parallel group it is not approved for. */
  predicate Unapproved(g: Gate) {
    g.group != NoGroup && !InGroup(g, g.group)
  }

  /** The gate may join a wave of the given group. */
  predicate InGroup(g: Gate, group: Group) {
    && g.group == group && group.Named? && group.name in PARALLEL_GROUP_MEMBERS
    && g.id in PARALLEL_GROUP_MEMBERS[group.name] && g.platforms == Some(["any"])
  }

  /** Members of a wave run everywhere, so the platform skip inside a wave cannot be taken. */
  lemma WaveMembersApply(g: Gate, group: Group, here: string)
    requires InGroup(g, group)
    ensures Applicable(g, here)
  {}

  function Bare<E>(id: string, status: Status): Record<E> {
    Record(id, status, None, None, false, None, None, None, None, None)
  }

  /** record_unrun. */
  function Unrun<E>(id: string, blocker: Blocker): Record<E> {
    Bare<E>(id, NotRun).(blockedBy := Some(blocker))
  }

  /** The record of a gate whose global budget is already spent. */
  function Exhausted<E>(id: string): Record<E> {
    Bare<E>(id, Fail).(timedOut := true, timeoutSeconds := Some(0))
  }
}
