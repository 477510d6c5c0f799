/** tools/bench/host_study.py: collecting attempts into a hash-chained log, and verifying it. */
module StudyLedger {
  import opened Wrappers
  import opened StudyPlan

  datatype EventKind = StartedEvent | TerminalEvent
  datatype Status = Completed | Failed | Excluded

  /** `Foreign` stands for any payload that is neither empty nor a terminal object. */
  datatype Payload =
    | Empty
    | Ended(status: Status, exitCode: Option<int>, reason: Option<string>, files: map<string, Digest>)
    | Foreign

  datatype Row = Row(sequence: int, previous: Digest, kind: EventKind, attempt: string, payload: Payload)

  datatype Final = Final(planSha: Digest, lastEvent: Digest, eventCount: nat)

  /** An attempt directory: its regular files, and whether it holds nothing else. */
  datatype Directory = Directory(files: map<string, Digest>, flat: bool)

  /**
   * What happened when an attempt was tried: its inputs were refused before any launch, the
   * supervisor raised, possibly after receiving a signal, or the process settled.
   */
  datatype Execution =
    | Refused(text: string)
    | Raised(text: string, signal: Option<int>)
    | Ran(code: Option<int>, interrupt: Option<int>, timedOut: bool)

  /** The environment's answer for one attempt if the collector does try it. */
  datatype World = World(execution: Execution, retained: map<string, Digest>, flat: bool, stdout: Digest,
                         stderr: Digest)

  const ARTIFACTS: set<string> :=
    {"raw", "summary", "raw.provenance.json", "raw.runner", "raw.topology.json", "raw.resources.json"}

  // ---- one attempt ----

  /** The failure text recorded for an attempt; `before` is an earlier interrupt. */
  function Reason(before: Option<int>, w: World): Option<string> {
    if before.Some? then Some("not launched after collector signal")
    else
      match w.execution
      case Refused(text) => Some(text)
      case Raised(text, _) => Some(text)
      case Ran(code, interrupt, timedOut) =>
        if interrupt.Some? then Some("collector interrupted by signal")
        else if timedOut then Some("runner timeout")
        else if code.None? then Some("runner exited without settled process group")
        else if code.value != 0 then Some("runner exit")
        else if !(ARTIFACTS <= w.retained.Keys) then Some("runner did not retain all artifacts")
        else None
  }

  function ExitCode(before: Option<int>, w: World): Option<int> {
    if before.None? && w.execution.Ran? then w.execution.code else None
  }

  /** Only a settled process reports the signal that it received. */
  function NextInterrupt(before: Option<int>, w: World): Option<int> {
    if before.Some? then before else if w.execution.Ran? then w.execution.interrupt else None
  }

  /** The directory left behind; an attempt that is not launched retains only its two output files. */
  function Left(before: Option<int>, w: World): Directory {
    var outputs := map["stdout" := w.stdout, "stderr" := w.stderr];
    if before.Some? then Directory(outputs, true) else Directory(w.retained + outputs, w.flat)
  }

  /** An empty failure text counts as no failure, as in the source. */
  function Outcome(before: Option<int>, w: World): Payload {
    var reason := Reason(before, w);
    Ended(if reason.Some? && reason.value != "" then Failed else Completed,
          ExitCode(before, w), reason, Left(before, w).files)
  }

  /** The run itself succeeded: settled, undisturbed, exit 0, every artifact kept. */
  predicate Succeeded(w: World) {
    w.execution == Ran(Some(0), None, false) && ARTIFACTS <= w.retained.Keys
  }

  /**
   * What a terminal record says. It reports completion without a reason exactly for a launched
   * run that succeeded, and completion at all only for that or for an exception without text;
   * an exit code means a process settled; the two outputs are always recorded, and nothing
   * else is for an attempt that an earlier interrupt held back.
   */
  lemma OutcomeMeaning(before: Option<int>, w: World)
    ensures var p := Outcome(before, w);
            && p.Ended? && !p.status.Excluded?
            && (p.status.Completed? && p.reason.None? <==> before.None? && Succeeded(w))
            && (p.status.Completed? && p.reason.Some? <==>
                  before.None? && !w.execution.Ran? && w.execution.text == "")
            && (p.exitCode.Some? <==> before.None? && w.execution.Ran? && w.execution.code.Some?)
            && {"stdout", "stderr"} <= p.files.Keys
            && (before.Some? ==> p.files.Keys == {"stdout", "stderr"})
  {}

  /** The interrupt known to the collector when it reaches attempt n. */
  function InterruptBefore(worlds: seq<World>, n: nat): Option<int>
    requires n <= |worlds|
  {
    if n == 0 then None else NextInterrupt(InterruptBefore(worlds, n - 1), worlds[n - 1])
  }

  // ---- the chain ----

  function Previous(planSha: Digest, sha: Row -> Digest, log: seq<Row>, j: nat): Digest
    requires j <= |log|
  {
    if j == 0 then planSha else sha(log[j - 1])
  }

  /** The event the collector writes at position j, given the digest it chains to. */
  function ExpectedRow(plan: seq<Attempt>, worlds: seq<World>, previous: Digest, j: nat): Row
    requires j / 2 < |plan| <= |worlds|
  {
    var i := j / 2;
    if j % 2 == 0 then Row(j, previous, StartedEvent, plan[i].id, Empty)
    else Row(j, previous, TerminalEvent, plan[i].id, Outcome(InterruptBefore(worlds, i), worlds[i]))
  }

  /** A chained initial part of the collected log, in plan order. */
  ghost predicate LogPrefix(plan: seq<Attempt>, worlds: seq<World>, planSha: Digest, sha: Row -> Digest, log: seq<Row>)
    requires |plan| <= |worlds|
  {
    && |log| <= 2 * |plan|
    && forall j :: 0 <= j < |log| ==> log[j] == ExpectedRow(plan, worlds, Previous(planSha, sha, log, j), j)
  }

  /** The complete collected log: a started and a terminal event per attempt. */
  ghost predicate IsLog(plan: seq<Attempt>, worlds: seq<World>, planSha: Digest, sha: Row -> Digest, log: seq<Row>)
    requires |plan| <= |worlds|
  {
    LogPrefix(plan, worlds, planSha, sha, log) && |log| == 2 * |plan|
  }

  lemma LogGrows(plan: seq<Attempt>, worlds: seq<World>, planSha: Digest, sha: Row -> Digest, log: seq<Row>, row: Row)
    requires |plan| <= |worlds| && |log| < 2 * |plan| && LogPrefix(plan, worlds, planSha, sha, log)
    requires row == ExpectedRow(plan, worlds, Previous(planSha, sha, log, |log|), |log|)
    ensures LogPrefix(plan, worlds, planSha, sha, log + [row])
    ensures Previous(planSha, sha, log + [row], |log| + 1) == sha(row)
  {
    hide ExpectedRow;
    var more := log + [row];
    forall j | 0 <= j < |more| ensures more[j] == ExpectedRow(plan, worlds, Previous(planSha, sha, more, j), j) {
      assert Previous(planSha, sha, more, j) == Previous(planSha, sha, log, j);
    }
  }

  /** The body of the loop between the two events of an attempt. */
  method TryAttempt(before: Option<int>, w: World) returns (payload: Payload, after: Option<int>)
    ensures payload == Outcome(before, w) && after == NextInterrupt(before, w)
  {
    var result: Option<int>, reason: Option<string> := None, None;
    after := before;
    if before.Some? {
      reason := Some("not launched after collector signal");
    } else {
      match w.execution {
        case Refused(text) => reason := Some(text);
        case Raised(text, _) => reason := Some(text);
        case Ran(code, interrupt, timedOut) =>
          result, after := code, interrupt;
          if interrupt.Some? { reason := Some("collector interrupted by signal"); }
          else if timedOut { reason := Some("runner timeout"); }
          else if code.None? { reason := Some("runner exited without settled process group"); }
          else if code.value != 0 { reason := Some("runner exit"); }
          else if !(ARTIFACTS <= w.retained.Keys) { reason := Some("runner did not retain all artifacts"); }
      }
    }
    payload := Ended(if reason.Some? && reason.value != "" then Failed else Completed,
                     result, reason, Left(before, w).files);
  }

  /** One turn of the collecting loop: append the started event, try the attempt, append the terminal. */
  method CollectOne(plan: seq<Attempt>, worlds: seq<World>, planSha: Digest, sha: Row -> Digest,
                    before: seq<Row>, last: Digest, interrupted: Option<int>, i: nat)
    returns (log: seq<Row>, previous: Digest, after: Option<int>)
    requires i < |plan| <= |worlds| && |before| == 2 * i && LogPrefix(plan, worlds, planSha, sha, before)
    requires last == Previous(planSha, sha, before, |before|) && interrupted == InterruptBefore(worlds, i)
    ensures |log| == 2 * i + 2 && LogPrefix(plan, worlds, planSha, sha, log)
    ensures previous == Previous(planSha, sha, log, |log|) && after == InterruptBefore(worlds, i + 1)
  {
    hide Outcome, NextInterrupt, LogPrefix, ExpectedRow;
    AttemptRows(plan, worlds, last, i);
    var started := Row(|before|, last, StartedEvent, plan[i].id, Empty);
    LogGrows(plan, worlds, planSha, sha, before, started);
    log, previous := before + [started], sha(started);
    var payload;
    payload, after := TryAttempt(interrupted, worlds[i]);
    AttemptRows(plan, worlds, previous, i);
    var terminal := Row(|log|, previous, TerminalEvent, plan[i].id, payload);
    LogGrows(plan, worlds, planSha, sha, log, terminal);
    log, previous := log + [terminal], sha(terminal);
  }

  /**
   * collect: exactly 2N chained events in plan order whatever happens, and an attempt is
   * launched exactly if its inputs are good and no settled attempt has reported an interrupt.
   */
  method Collect(plan: seq<Attempt>, worlds: seq<World>, planSha: Digest, sha: Row -> Digest)
    returns (log: seq<Row>, final: Final, launched: set<nat>)
    requires |worlds| == |plan|
    ensures IsLog(plan, worlds, planSha, sha, log)
    ensures final == Final(planSha, Previous(planSha, sha, log, |log|), |log|)
    ensures forall i: nat :: i in launched <==> i < |plan| && Launches(worlds, i)
  {
    hide LogPrefix, InterruptBefore;
    log, launched := [], {};
    EmptyLog(plan, worlds, planSha, sha);
    var previous, sequence := planSha, 0;
    var interrupted: Option<int> := None;
    var i := 0;
    while i < |plan|
      invariant 0 <= i <= |plan| && |log| == sequence == 2 * i
      invariant previous == Previous(planSha, sha, log, |log|)
      invariant interrupted == InterruptBefore(worlds, i)
      invariant LogPrefix(plan, worlds, planSha, sha, log)
      invariant forall k: nat :: k in launched <==> k < i && Launches(worlds, k)
    {
      if interrupted.None? && !worlds[i].execution.Refused? { launched := launched + {i}; }
      log, previous, interrupted := CollectOne(plan, worlds, planSha, sha, log, previous, interrupted, i);
      sequence := sequence + 2;
      i := i + 1;
    }
    final := Final(planSha, previous, sequence);
  }

  lemma AttemptRows(plan: seq<Attempt>, worlds: seq<World>, previous: Digest, i: nat)
    requires i < |plan| <= |worlds|
    ensures (2 * i) / 2 == i && (2 * i + 1) / 2 == i
    ensures ExpectedRow(plan, worlds, previous, 2 * i) == Row(2 * i, previous, StartedEvent, plan[i].id, Empty)
    ensures ExpectedRow(plan, worlds, previous, 2 * i + 1)
         == Row(2 * i + 1, previous, TerminalEvent, plan[i].id, Outcome(InterruptBefore(worlds, i), worlds[i]))
  {}

  lemma EmptyLog(plan: seq<Attempt>, worlds: seq<World>, planSha: Digest, sha: Row -> Digest)
    requires |plan| <= |worlds|
    ensures LogPrefix(plan, worlds, planSha, sha, []) && InterruptBefore(worlds, 0).None?
  {}

  /** A reported interrupt is never forgotten. */
  lemma {:induction false} NothingAfterInterrupt(worlds: seq<World>, i: nat, j: nat)
    requires i <= j <= |worlds| && InterruptBefore(worlds, i).Some?
    ensures InterruptBefore(worlds, j) == InterruptBefore(worlds, i)
  {
    if i < j { NothingAfterInterrupt(worlds, i, j - 1); }
  }

  // ---- received signals ----

  /** The supervisor is called for attempt i; the call may still fail to start a process. */
  predicate Launches(worlds: seq<World>, i: nat)
    requires i < |worlds|
  {
    InterruptBefore(worlds, i).None? && !worlds[i].execution.Refused?
  }

  predicate Reports(w: World) { w.execution.Ran? && w.execution.interrupt.Some? }

  /** The supervisor received a signal and then raised, so nothing reports it. */
  predicate Loses(w: World) { w.execution.Raised? && w.execution.signal.Some? }

  /** Nothing is launched after an attempt that received a signal. */
  ghost predicate StopsOnSignal(worlds: seq<World>) {
    forall i, j :: 0 <= i < j < |worlds| && Launches(worlds, i) && (Reports(worlds[i]) || Loses(worlds[i])) ==>
      !Launches(worlds, j)
  }

  /** The first signal is reported by a settled process, or no later attempt has inputs to be launched with. */
  ghost predicate FirstSignalReported(worlds: seq<World>) {
    forall i :: 0 <= i < |worlds| && Loses(worlds[i]) ==> Told(worlds, i) || NothingLeft(worlds, i + 1)
  }

  ghost predicate Told(worlds: seq<World>, n: nat)
    requires n <= |worlds|
  {
    exists k :: 0 <= k < n && Reports(worlds[k])
  }

  ghost predicate NothingLeft(worlds: seq<World>, n: nat) {
    forall j :: n <= j < |worlds| ==> worlds[j].execution.Refused?
  }

  /** The collector knows of an interrupt exactly when a settled process reported one. */
  lemma {:induction false} KnownIsTold(worlds: seq<World>, n: nat)
    requires n <= |worlds|
    ensures InterruptBefore(worlds, n).Some? <==> Told(worlds, n)
  {
    if n > 0 {
      KnownIsTold(worlds, n - 1);
      assert Told(worlds, n) <==> Told(worlds, n - 1) || Reports(worlds[n - 1]);
    }
  }

  /** After a lost signal the next attempt with good inputs is launched. */
  lemma {:induction false} LaunchedNext(worlds: seq<World>, n: nat)
    requires n <= |worlds| && InterruptBefore(worlds, n).None? && !NothingLeft(worlds, n)
    ensures exists j :: n <= j < |worlds| && Launches(worlds, j)
    decreases |worlds| - n
  {
    if worlds[n].execution.Refused? {
      LaunchedNext(worlds, n + 1);
    } else {
      assert Launches(worlds, n);
    }
  }

  /**
   * Nothing is launched after a received signal exactly when no attempt loses the first signal
   * by raising while launchable attempts remain.
   */
  lemma StopsExactly(worlds: seq<World>)
    ensures StopsOnSignal(worlds) <==> FirstSignalReported(worlds)
  {
    hide Launches, NothingLeft, Told;
    if StopsOnSignal(worlds) {
      forall i | 0 <= i < |worlds| && Loses(worlds[i]) ensures Told(worlds, i) || NothingLeft(worlds, i + 1) {
        LostSignal(worlds, i);
      }
    }
    if FirstSignalReported(worlds) {
      forall i, j | 0 <= i < j < |worlds| && Launches(worlds, i) && (Reports(worlds[i]) || Loses(worlds[i]))
        ensures !Launches(worlds, j)
      {
        StoppedAt(worlds, i, j);
      }
    }
  }

  lemma LostSignal(worlds: seq<World>, i: nat)
    requires i < |worlds| && Loses(worlds[i])
    ensures Told(worlds, i) || NothingLeft(worlds, i + 1)
         || (Launches(worlds, i) && exists j :: i < j < |worlds| && Launches(worlds, j))
  {
    KnownIsTold(worlds, i);
    if !Told(worlds, i) && !NothingLeft(worlds, i + 1) { LaunchedNext(worlds, i + 1); }
  }

  lemma StoppedAt(worlds: seq<World>, i: nat, j: nat)
    requires i < j < |worlds| && Launches(worlds, i)
    requires Reports(worlds[i]) || (Loses(worlds[i]) && (Told(worlds, i) || NothingLeft(worlds, i + 1)))
    ensures !Launches(worlds, j)
  {
    KnownIsTold(worlds, i);
    if Reports(worlds[i]) { NothingAfterInterrupt(worlds, i + 1, j); }
  }

  /** The failing family is real: a signal that ends in an exception, and the next attempt is launched all the same. */
  lemma SignalIsLost(first: World, next: World)
    requires first.execution == Raised("owned leader did not exit after group SIGKILL", Some(2))
        && !next.execution.Refused?
    ensures Launches([first, next], 1) && !StopsOnSignal([first, next])
  {
    var worlds := [first, next];
    assert InterruptBefore(worlds, 0).None? && InterruptBefore(worlds, 1).None?;
    assert Launches(worlds, 0) && Loses(worlds[0]) && Launches(worlds, 1);
  }

  // ---- verify ----

  datatype Error = DigestDiffers | EventCount | OrderOrChain | StartedPayload | TerminalPayload | FinalDigest

  datatype Report = Report(attempted: nat, failed: seq<string>)

  /** The conditions on one terminal payload against its attempt and its directory. */
  predicate EndedOk(a: Attempt, p: Payload, dir: Directory) {
    && p.Ended?
    && !p.status.Excluded?
    && (p.status.Completed? ==> p.exitCode == Some(0) && p.reason.None?)
    && (p.status.Failed? ==> p.reason.Some? && p.reason.value != "")
    && dir.flat && dir.files == p.files && {"stdout", "stderr"} <= p.files.Keys
    && (p.status.Completed? ==>
          && ARTIFACTS <= p.files.Keys
          && ("scenario" in p.files && p.files["scenario"] == a.scenario)
          && ("calibration" in p.files && p.files["calibration"] == a.calibration))
  }

  predicate RowOk(plan: seq<Attempt>, dirs: seq<Directory>, previous: Digest, row: Row, j: nat)
    requires j / 2 < |plan| == |dirs|
  {
    && row.sequence == j && row.previous == previous && row.attempt == plan[j / 2].id
    && (if j % 2 == 0 then row.kind.StartedEvent? && row.payload == Empty
        else row.kind.TerminalEvent? && EndedOk(plan[j / 2], row.payload, dirs[j / 2]))
  }

  /** What verify accepts. */
  ghost predicate Admitted(plan: seq<Attempt>, dirs: seq<Directory>, planSha: Digest, sha: Row -> Digest,
                           rows: seq<Row>, final: Final)
    requires |dirs| == |plan|
  {
    && final.planSha == planSha
    && |rows| == final.eventCount == 2 * |plan|
    && RowsOk(plan, dirs, planSha, sha, rows, |rows|)
    && Previous(planSha, sha, rows, |rows|) == final.lastEvent
  }

  /** The attempts that the first n rows report as failed. */
  function FailedIds(plan: seq<Attempt>, rows: seq<Row>, n: nat): seq<string>
    requires n <= |rows| <= 2 * |plan|
  {
    if n == 0 then []
    else
      var p := rows[n - 1].payload;
      FailedIds(plan, rows, n - 1)
      + if n % 2 == 0 && p.Ended? && p.status.Failed? then [plan[(n - 1) / 2].id] else []
  }

  /** The checks of one turn of the loop, in the source's order. */
  function RowError(plan: seq<Attempt>, dirs: seq<Directory>, previous: Digest, row: Row, j: nat): (e: Option<Error>)
    requires j / 2 < |plan| == |dirs|
    ensures e.None? <==> RowOk(plan, dirs, previous, row, j)
  {
    hide EndedOk;
    var expected := plan[j / 2];
    if row.sequence != j || row.previous != previous || row.attempt != expected.id
       || row.kind != (if j % 2 == 0 then StartedEvent else TerminalEvent) then Some(OrderOrChain)
    else if j % 2 == 0 then (if row.payload != Empty then Some(StartedPayload) else None)
    else if !EndedOk(expected, row.payload, dirs[j / 2]) then Some(TerminalPayload)
    else None
  }

  ghost predicate RowsOk(plan: seq<Attempt>, dirs: seq<Directory>, planSha: Digest, sha: Row -> Digest,
                         rows: seq<Row>, n: nat)
    requires n <= |rows| <= 2 * |plan| && |dirs| == |plan|
  {
    forall j :: 0 <= j < n ==> RowOk(plan, dirs, Previous(planSha, sha, rows, j), rows[j], j)
  }

  method Verify(plan: seq<Attempt>, dirs: seq<Directory>, planSha: Digest, sha: Row -> Digest, rows: seq<Row>,
                final: Final)
    returns (r: Result<Report, Error>)
    requires |dirs| == |plan|
    ensures r.Ok? <==> Admitted(plan, dirs, planSha, sha, rows, final)
    ensures r.Ok? ==> r.value == Report(|plan|, FailedIds(plan, rows, |rows|))
  {
    hide RowOk, RowError;
    if final.planSha != planSha { return Err(DigestDiffers); }
    if |rows| != final.eventCount || |rows| != 2 * |plan| { return Err(EventCount); }
    var previous, terminals, failed := planSha, 0, [];
    var index := 0;
    while index < |rows|
      invariant 0 <= index <= |rows|
      invariant previous == Previous(planSha, sha, rows, index)
      invariant terminals == index / 2 && failed == FailedIds(plan, rows, index)
      invariant RowsOk(plan, dirs, planSha, sha, rows, index)
    {
      var row := rows[index];
      var error := RowError(plan, dirs, previous, row, index);
      if error.Some? { return Err(error.value); }
      if index % 2 == 1 {
        if row.payload.Ended? && row.payload.status.Failed? { failed := failed + [plan[index / 2].id]; }
        terminals := terminals + 1;
      }
      previous := sha(row);
      index := index + 1;
    }
    if previous != final.lastEvent { return Err(FinalDigest); }
    r := Ok(Report(terminals, failed));
  }

  // ---- what an admitted log says, and what is reported ----

  /** The log reports attempt i as failed. */
  predicate FailedAt(rows: seq<Row>, i: nat)
    requires 2 * i + 1 < |rows|
  {
    rows[2 * i + 1].payload.Ended? && rows[2 * i + 1].payload.status.Failed?
  }

  ghost function FailedSet(rows: seq<Row>, n: nat): set<nat>
    requires 2 * n <= |rows|
  {
    set i: nat | i < n && FailedAt(rows, i)
  }

  lemma Halves(m: nat)
    ensures (2 * m + 1) / 2 == m && (2 * m + 1) % 2 == 1 && (2 * m + 2) % 2 == 0
  {}

  lemma FailedSnoc(plan: seq<Attempt>, rows: seq<Row>, m: nat)
    requires 2 * m + 2 <= |rows| <= 2 * |plan|
    ensures FailedIds(plan, rows, 2 * m + 2) ==
            FailedIds(plan, rows, 2 * m) + if FailedAt(rows, m) then [plan[m].id] else []
  {
    hide FailedIds;
    Halves(m);
    FailedOne(plan, rows, 2 * m + 1);
    FailedOne(plan, rows, 2 * m + 2);
  }

  lemma FailedOne(plan: seq<Attempt>, rows: seq<Row>, n: nat)
    requires 0 < n <= |rows| <= 2 * |plan|
    ensures FailedIds(plan, rows, n) == FailedIds(plan, rows, n - 1) +
              if n % 2 == 0 && rows[n - 1].payload.Ended? && rows[n - 1].payload.status.Failed?
              then [plan[(n - 1) / 2].id] else []
  {}

  lemma FailedSetSnoc(rows: seq<Row>, n: nat)
    requires 0 < n && 2 * n <= |rows|
    ensures FailedSet(rows, n) == FailedSet(rows, n - 1) + if FailedAt(rows, n - 1) then {n - 1} else {}
    ensures n - 1 !in FailedSet(rows, n - 1)
  {}

  /** Place k of the report is taken by attempt i. */
  ghost predicate Listed(plan: seq<Attempt>, rows: seq<Row>, id: string, k: int, i: nat) {
    i < |plan| && 2 * i + 1 < |rows| && FailedAt(rows, i) && id == plan[i].id && k == |FailedSet(rows, i)|
  }

  /** Every place is taken by one of the first n attempts. */
  ghost predicate AllListed(plan: seq<Attempt>, rows: seq<Row>, ids: seq<string>, n: nat) {
    forall k :: 0 <= k < |ids| ==> HasPlace(plan, rows, ids[k], k, n)
  }

  ghost predicate HasPlace(plan: seq<Attempt>, rows: seq<Row>, id: string, k: int, n: nat) {
    exists i: nat :: i < n && Listed(plan, rows, id, k, i)
  }

  /** The reported ids are those of the failed attempts, each once per failure and in plan order. */
  lemma {:induction false} FailedExactly(plan: seq<Attempt>, rows: seq<Row>, n: nat)
    requires 2 * n <= |rows| <= 2 * |plan|
    ensures |FailedIds(plan, rows, 2 * n)| == |FailedSet(rows, n)|
    ensures AllListed(plan, rows, FailedIds(plan, rows, 2 * n), n)
  {
    hide FailedIds, FailedSet, FailedAt, AllListed;
    if n == 0 {
      NoneFailed(plan, rows);
    } else {
      var m := n - 1;
      assert 2 * n == 2 * m + 2;
      FailedExactly(plan, rows, m);
      FailedSnoc(plan, rows, m);
      FailedSetSnoc(rows, n);
      ListedSnoc(plan, rows, FailedIds(plan, rows, 2 * m), FailedIds(plan, rows, 2 * m + 2), m);
    }
  }

  lemma NoneFailed(plan: seq<Attempt>, rows: seq<Row>)
    requires |rows| <= 2 * |plan|
    ensures FailedIds(plan, rows, 0) == [] && FailedSet(rows, 0) == {} && AllListed(plan, rows, [], 0)
  {}

  lemma ListedSnoc(plan: seq<Attempt>, rows: seq<Row>, before: seq<string>, now: seq<string>, m: nat)
    requires 2 * m + 2 <= |rows| <= 2 * |plan| && AllListed(plan, rows, before, m) && |before| == |FailedSet(rows, m)|
    requires now == before + if FailedAt(rows, m) then [plan[m].id] else []
    ensures AllListed(plan, rows, now, m + 1)
  {
    hide FailedSet, FailedAt;
    forall k | 0 <= k < |now| ensures HasPlace(plan, rows, now[k], k, m + 1) {
      if k < |before| {
        assert HasPlace(plan, rows, before[k], k, m);
        var i: nat :| i < m && Listed(plan, rows, before[k], k, i);
        assert Listed(plan, rows, now[k], k, i);
      } else {
        assert Listed(plan, rows, now[k], k, m);
      }
    }
  }

  /** A completed attempt: exit 0, no reason, all artifacts and the predeclared inputs in the directory. */
  predicate CompletedWell(a: Attempt, p: Payload)
    requires p.Ended?
  {
    && p.exitCode == Some(0) && p.reason.None?
    && {"raw", "summary", "raw.provenance.json", "raw.runner", "raw.topology.json",
        "raw.resources.json"} <= p.files.Keys
    && "scenario" in p.files && p.files["scenario"] == a.scenario
    && "calibration" in p.files && p.files["calibration"] == a.calibration
  }

  /** The two events of attempt i: its start, and an end that accounts for the whole directory. */
  predicate AttemptLogged(a: Attempt, dir: Directory, start: Row, end: Row, i: nat) {
    && start.sequence == 2 * i && start.kind == StartedEvent && start.attempt == a.id && start.payload == Empty
    && end.sequence == 2 * i + 1 && end.kind == TerminalEvent && end.attempt == a.id && end.payload.Ended?
    && dir == Directory(end.payload.files, true) && "stdout" in end.payload.files && "stderr" in end.payload.files
    && match end.payload.status
       case Completed => CompletedWell(a, end.payload)
       case Failed => end.payload.reason.Some? && end.payload.reason.value != ""
       case Excluded => false
  }

  /**
   * What verify accepts, attempt by attempt: two events per attempt in plan order, chained from the
   * plan to the final record, each pair accounting for its own directory.
   */
  lemma AdmittedExactly(plan: seq<Attempt>, dirs: seq<Directory>, planSha: Digest, sha: Row -> Digest,
                        rows: seq<Row>, final: Final)
    requires |dirs| == |plan|
    ensures Admitted(plan, dirs, planSha, sha, rows, final) <==>
            && final.planSha == planSha && final.eventCount == |rows| == 2 * |plan|
            && final.lastEvent == (if rows == [] then planSha else sha(rows[|rows| - 1]))
            && (forall j :: 0 <= j < |rows| ==> rows[j].previous == if j == 0 then planSha else sha(rows[j - 1]))
            && (forall i :: 0 <= i < |plan| ==> AttemptLogged(plan[i], dirs[i], rows[2 * i], rows[2 * i + 1], i))
  {
    hide RowContent, AttemptLogged, RowsOk;
    assert Previous(planSha, sha, rows, |rows|) == if rows == [] then planSha else sha(rows[|rows| - 1]);
    if |rows| == 2 * |plan| {
      ContentExactly(plan, dirs, rows);
      ChainExactly(plan, dirs, planSha, sha, rows);
    }
  }

  lemma ChainExactly(plan: seq<Attempt>, dirs: seq<Directory>, planSha: Digest, sha: Row -> Digest, rows: seq<Row>)
    requires |dirs| == |plan| && |rows| == 2 * |plan|
    ensures RowsOk(plan, dirs, planSha, sha, rows, |rows|) <==>
            && (forall j :: 0 <= j < |rows| ==> rows[j].previous == if j == 0 then planSha else sha(rows[j - 1]))
            && (forall j :: 0 <= j < |rows| ==> RowContent(plan, dirs, rows[j], j))
  {
    hide EndedOk;
    forall j | 0 <= j < |rows|
      ensures RowOk(plan, dirs, Previous(planSha, sha, rows, j), rows[j], j) <==>
              && rows[j].previous == (if j == 0 then planSha else sha(rows[j - 1]))
                  && RowContent(plan, dirs, rows[j], j)
    {}
  }

  lemma ContentExactly(plan: seq<Attempt>, dirs: seq<Directory>, rows: seq<Row>)
    requires |dirs| == |plan| && |rows| == 2 * |plan|
    ensures (forall j :: 0 <= j < |rows| ==> RowContent(plan, dirs, rows[j], j)) <==>
            (forall i :: 0 <= i < |plan| ==> AttemptLogged(plan[i], dirs[i], rows[2 * i], rows[2 * i + 1], i))
  {
    hide RowContent, AttemptLogged;
    forall i | 0 <= i < |plan|
      ensures AttemptLogged(plan[i], dirs[i], rows[2 * i], rows[2 * i + 1], i) <==>
              RowContent(plan, dirs, rows[2 * i], 2 * i) && RowContent(plan, dirs, rows[2 * i + 1], 2 * i + 1)
    {
      LoggedExactly(plan, dirs, rows[2 * i], rows[2 * i + 1], i);
    }
    if forall i :: 0 <= i < |plan| ==> AttemptLogged(plan[i], dirs[i], rows[2 * i], rows[2 * i + 1], i) {
      forall j | 0 <= j < |rows| ensures RowContent(plan, dirs, rows[j], j) {
        var i := j / 2;
        assert AttemptLogged(plan[i], dirs[i], rows[2 * i], rows[2 * i + 1], i);
      }
    }
  }

  /** A row's conditions apart from the chain. */
  predicate RowContent(plan: seq<Attempt>, dirs: seq<Directory>, row: Row, j: nat)
    requires j / 2 < |plan| == |dirs|
  {
    RowOk(plan, dirs, row.previous, row, j)
  }

  lemma LoggedExactly(plan: seq<Attempt>, dirs: seq<Directory>, start: Row, end: Row, i: nat)
    requires i < |plan| == |dirs|
    ensures (2 * i) / 2 == i && (2 * i + 1) / 2 == i
    ensures AttemptLogged(plan[i], dirs[i], start, end, i) <==>
            RowContent(plan, dirs, start, 2 * i) && RowContent(plan, dirs, end, 2 * i + 1)
  {}

  // ---- collected logs verify ----

  /**
   * An attempt whose terminal record passes: it left a flat directory, an exception carried a
   * nonempty text, and a fully successful run kept its predeclared inputs.
   */
  ghost predicate Accountable(a: Attempt, before: Option<int>, w: World) {
    before.None? ==>
      && w.flat
      && (!w.execution.Ran? ==> w.execution.text != "")
      && (Reason(before, w).None? ==> KeptInputs(a, w))
  }

  ghost predicate KeptInputs(a: Attempt, w: World) {
    && "scenario" in w.retained && w.retained["scenario"] == a.scenario
    && "calibration" in w.retained && w.retained["calibration"] == a.calibration
  }

  lemma OutcomeVerifies(a: Attempt, before: Option<int>, w: World)
    ensures EndedOk(a, Outcome(before, w), Left(before, w)) <==> Accountable(a, before, w)
  {}

  function Directories(worlds: seq<World>): (d: seq<Directory>)
    ensures |d| == |worlds|
  {
    seq(|worlds|, i requires 0 <= i < |worlds| => Left(InterruptBefore(worlds, i), worlds[i]))
  }

  /**
   * The collector's own log is accepted exactly when every attempt is accountable. Timeouts,
   * nonzero exits, interrupts, missing artifacts and failures with a text are all accountable.
   */
  lemma CollectedIsAdmitted(plan: seq<Attempt>, worlds: seq<World>, planSha: Digest, sha: Row -> Digest, log: seq<Row>)
    requires |worlds| == |plan| && IsLog(plan, worlds, planSha, sha, log)
    ensures Admitted(plan, Directories(worlds), planSha, sha, log,
                     Final(planSha, Previous(planSha, sha, log, |log|), |log|))
        <==> forall i :: 0 <= i < |plan| ==> Accountable(plan[i], InterruptBefore(worlds, i), worlds[i])
  {
    hide Outcome, EndedOk, Accountable, Left;
    var dirs := Directories(worlds);
    forall j | 0 <= j < |log|
      ensures RowOk(plan, dirs, Previous(planSha, sha, log, j), log[j], j)
          <==> (j % 2 == 1 ==> Accountable(plan[j / 2], InterruptBefore(worlds, j / 2), worlds[j / 2]))
    {
      var i := j / 2;
      assert log[j] == ExpectedRow(plan, worlds, Previous(planSha, sha, log, j), j);
      OutcomeVerifies(plan[i], InterruptBefore(worlds, i), worlds[i]);
    }
    if Admitted(plan, dirs, planSha, sha, log, Final(planSha, Previous(planSha, sha, log, |log|), |log|)) {
      forall i | 0 <= i < |plan| ensures Accountable(plan[i], InterruptBefore(worlds, i), worlds[i]) {
        var j := 2 * i + 1;
        assert RowOk(plan, dirs, Previous(planSha, sha, log, j), log[j], j) && j / 2 == i;
      }
    }
  }

  /** The failing family is real: an exception without text is logged as completed and then refused. */
  lemma EmptyTextIsRefused(a: Attempt, planSha: Digest, sha: Row -> Digest, log: seq<Row>)
    requires IsLog([a], [World(Raised("", None), map[], true, 0, 0)], planSha, sha, log)
    ensures var worlds := [World(Raised("", None), map[], true, 0, 0)];
            !Admitted([a], Directories(worlds), planSha, sha, log,
                      Final(planSha, Previous(planSha, sha, log, |log|), |log|))
  {}

  // ---- the chain determines the log ----

  ghost predicate Chained(planSha: Digest, sha: Row -> Digest, rows: seq<Row>) {
    forall j :: 0 <= j < |rows| ==> rows[j].previous == Previous(planSha, sha, rows, j)
  }

  /** The hash never maps two events to one digest. */
  ghost predicate Injective(sha: Row -> Digest) {
    forall x, y :: sha(x) == sha(y) ==> x == y
  }

  lemma SameDigest(sha: Row -> Digest, x: Row, y: Row)
    requires Injective(sha) && sha(x) == sha(y)
    ensures x == y
  {}

  /** With a collision-free hash, length and last digest fix every event of a chained log. */
  lemma {:induction false} ChainDeterminesEvent(planSha: Digest, sha: Row -> Digest, a: seq<Row>, b: seq<Row>, j: nat)
    requires Injective(sha)
    requires Chained(planSha, sha, a) && Chained(planSha, sha, b) && j < |a| == |b|
    requires Previous(planSha, sha, a, |a|) == Previous(planSha, sha, b, |b|)
    ensures a[j] == b[j]
    decreases |a| - j
  {
    hide Injective;
    if j + 1 < |a| {
      ChainDeterminesEvent(planSha, sha, a, b, j + 1);
      assert a[j + 1].previous == Previous(planSha, sha, a, j + 1) == sha(a[j]);
      assert b[j + 1].previous == Previous(planSha, sha, b, j + 1) == sha(b[j]);
    }
    SameDigest(sha, a[j], b[j]);
  }

  /** Two logs admitted under one final record are the same log, whatever the directories hold. */
  lemma FinalRecordDeterminesLog(plan: seq<Attempt>, planSha: Digest, sha: Row -> Digest, final: Final,
                                 a: seq<Row>, dirsA: seq<Directory>, b: seq<Row>, dirsB: seq<Directory>)
    requires Injective(sha)
    requires |dirsA| == |dirsB| == |plan|
    requires Admitted(plan, dirsA, planSha, sha, a, final) && Admitted(plan, dirsB, planSha, sha, b, final)
    ensures a == b
  {
    hide Injective, EndedOk;
    forall j | 0 <= j < |a| ensures a[j].previous == Previous(planSha, sha, a, j) {
      assert RowOk(plan, dirsA, Previous(planSha, sha, a, j), a[j], j);
    }
    forall j | 0 <= j < |b| ensures b[j].previous == Previous(planSha, sha, b, j) {
      assert RowOk(plan, dirsB, Previous(planSha, sha, b, j), b[j], j);
    }
    forall j | 0 <= j < |a| ensures a[j] == b[j] {
      ChainDeterminesEvent(planSha, sha, a, b, j);
    }
  }
}
