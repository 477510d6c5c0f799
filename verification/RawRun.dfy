/** tools/bench/host_perf.py: one row of a raw host run, and what makes it acceptable. */
module RawRun {
  import opened Wrappers

  datatype Terminal =
    | TSuccess | TRejected(typedVerdict: bool) | TDeadline | TCancelled | TTaskError | TGovernorError | TUntyped

  datatype Disposition = DNotSubmitted | DResponded(terminal: Terminal) | DCallerDropped | DUnanswered | DInvalid

  datatype Offer = Offer(sendTime: int, class_: string, path: string)

  datatype Row = Row(
    id: int, class_: string, path: string, intended: int, lag: int,
    submitted: Option<int>, started: Option<int>, finished: Option<int>, response: Option<int>, drop: Option<int>,
    disposition: Disposition)

  /** Injection window, report interval, and SLO per class, all in nanoseconds. */
  datatype Setting = Setting(cut: nat, interval: nat, slo: map<string, nat>)

  ghost predicate ValidSetting(c: Setting) {
    c.cut > 0 && c.interval > 0 && c.cut % c.interval == 0
  }

  /** The nine outcome columns of a cohort table. */
  datatype Kind =
    | Success | Rejected | Deadline | Cancelled | TaskError | GovernorError
    | CallerDropped | NotSubmitted | Unanswered

  /** A class together with an execution path. */
  datatype Cohort = Cohort(class_: string, path: string)

  const PATHS: set<string> := {"io", "blocking", "cpu", "requested_stack_blocking", "requested_stack_async"}

  datatype RowError =
    | BadSchedule | Misattributed | UnknownClassOrPath | BadLag | BadDisposition | ActivityWithoutSubmission
    | BadSubmit | BadStart | BadFinish | BadResponse | UntypedOutcome | UntypedVerdict | RejectedStarted
    | SuccessWithoutFinish | BadDrop | UnansweredHasTerminal

  function KindOf(r: Row): Kind {
    match r.disposition
    case DNotSubmitted => NotSubmitted
    case DCallerDropped => CallerDropped
    case DResponded(TSuccess) => Success
    case DResponded(TRejected(_)) => Rejected
    case DResponded(TDeadline) => Deadline
    case DResponded(TCancelled) => Cancelled
    case DResponded(TTaskError) => TaskError
    case DResponded(_) => GovernorError
    case _ => Unanswered
  }

  function CohortOf(r: Row): Cohort { Cohort(r.class_, r.path) }

  predicate Nat(t: Option<int>) { t.Some? && t.value >= 0 }

  /** Row identity and schedule, checked against the offer at the same position. */
  function IdentityError(c: Setting, index: nat, o: Offer, r: Row, last: int): Option<RowError> {
    if o.sendTime < 0 || o.sendTime < last || o.sendTime >= c.cut then Some(BadSchedule)
    else if r.id != index || r.class_ != o.class_ || r.path != o.path || r.intended != o.sendTime then
        Some(Misattributed)
    else if r.class_ !in c.slo || r.path !in PATHS then Some(UnknownClassOrPath)
    else if r.lag < 0 then Some(BadLag)
    else None
  }

  /** Submission, body start and body finish. */
  function ProgressError(c: Setting, r: Row): Option<RowError> {
    if !Nat(r.submitted) || r.submitted.value < r.intended || r.submitted.value >= c.cut
       || r.lag > r.submitted.value - r.intended then Some(BadSubmit)
    else if r.started.Some? && (r.started.value < 0 || r.started.value < r.submitted.value) then Some(BadStart)
    else if r.finished.Some? && (r.finished.value < 0 || r.started.None? || r.finished.value < r.started.value) then
      Some(BadFinish)
    else None
  }

  /** The terminal part of a submitted row. */
  function TerminalError(r: Row): Option<RowError>
    requires r.submitted.Some?
  {
    match r.disposition
    case DResponded(terminal) =>
      if !Nat(r.response) || r.response.value < r.submitted.value || r.drop.Some? then Some(BadResponse)
      else if terminal.TUntyped? then Some(UntypedOutcome)
      else if terminal.TRejected? && !terminal.typedVerdict then Some(UntypedVerdict)
      else if terminal.TRejected? && r.started.Some? then Some(RejectedStarted)
      else if terminal.TSuccess? && (r.finished.None? || r.finished.value > r.response.value) then
        Some(SuccessWithoutFinish)
      else None
    case DCallerDropped =>
      if !Nat(r.drop) || r.drop.value < r.submitted.value || r.response.Some? then Some(BadDrop) else None
    case _ =>
      if r.response.Some? || r.drop.Some? then Some(UnansweredHasTerminal) else None
  }

  /** Every check of one turn of the row loop, in the source's order. */
  function CheckRow(c: Setting, index: nat, o: Offer, r: Row, last: int): Option<RowError> {
    var identity := IdentityError(c, index, o, r, last);
    if identity.Some? then identity
    else if r.disposition.DInvalid? then Some(BadDisposition)
    else if r.disposition.DNotSubmitted? then
      if r.submitted.Some? || r.started.Some? || r.finished.Some? || r.response.Some? || r.drop.Some?
      then Some(ActivityWithoutSubmission) else None
    else
      var progress := ProgressError(c, r);
      if progress.Some? then progress else TerminalError(r)
  }

  /** What an accepted row is known to satisfy. */
  predicate Sound(c: Setting, r: Row) {
    && 0 <= r.intended < c.cut && r.class_ in c.slo && !r.disposition.DInvalid?
    && (if r.disposition.DNotSubmitted? then
          r.submitted.None? && r.started.None? && r.finished.None? && r.response.None? && r.drop.None?
        else r.submitted.Some? && r.intended <= r.submitted.value < c.cut)
    && (r.started.Some? ==> r.submitted.Some? && r.submitted.value <= r.started.value)
    && (r.disposition.DResponded? <==> r.response.Some?)
    && (r.disposition.DCallerDropped? <==> r.drop.Some?)
    && (r.response.Some? ==> r.submitted.value <= r.response.value)
    && (r.drop.Some? ==> r.submitted.value <= r.drop.value)
    && (r.disposition.DResponded? ==> !r.disposition.terminal.TUntyped?)
    && (r.disposition != DResponded(TRejected(false)))
    && (r.disposition == DResponded(TRejected(true)) ==> r.started.None?)
    && (r.disposition == DResponded(TSuccess) ==>
          r.started.Some? && r.finished.Some? && r.finished.value <= r.response.value)
  }

  lemma AcceptedIsSound(c: Setting, index: nat, o: Offer, r: Row, last: int)
    requires CheckRow(c, index, o, r, last).None?
    ensures Sound(c, r) && r.intended == o.sendTime && r.path in PATHS
  {}
}
