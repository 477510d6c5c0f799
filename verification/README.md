# Verified models of the gate, supervision and measurement tools

A Dafny project that models the parts of the repository's tooling whose correctness is not
visible from any single function, and proves what those parts are for. `dafny verify
dfyconfig.toml` checks everything.

The main results:

- **Process custody** (`ProcessSupervisor`, `SupervisorCustody`, `ProcessBatch`, `BatchCustody`).
  `run_process` and `run_process_batch` are step machines: one statement of the main program at a
  time, a cancel handler that may be entered between any two statements and is itself
  interruptible, exceptions at any statement, and free choices for children, pipes and clock. In
  every run of `run_process` no group signal is issued once the leader has been reaped. For a
  batch this holds in every single run whose cleanup loop completes, and over all runs **if and
  only if** that loop cannot itself fail: otherwise the `finally` clause reaps a leader whose group
  is not marked as retired while the handler is still installed. The errors of `killpg` are caught
  there, so only an asynchronous exception (memory exhaustion, or a handler that the embedding
  program installed for another signal) can leave the loop.
- **Settlement** (`SupervisorSettlement`, `SupervisorArms`, `BatchClock`, `BatchSettlement`). The
  supervision loop is left within the timeout plus two grace-and-reap allowances plus eight turns,
  whatever the leader and its pipes do; in a batch the same holds for every child with seven turns,
  counted from its own timeout or from the start of the loop. The handler's test for an earlier
  signal and its recording of its own are two statements, so several handlers may pass the test
  together; each then arms the grace deadline once, and any number of them can
  (`SupervisorRuns`). The deadline is armed at most three times and by each cause at most once
  **exactly when** no second handler passed the test before the first had recorded, and in the
  order abort, timeout, interrupt **exactly when**, besides, the interrupt was not recorded inside
  an arming branch that has since armed. The time bounds hold in all these runs.
- **Escalation** (`SupervisorEscalation`, `BatchEscalation`). Inside the loop the group has been sent
  TERM once a timeout, an abort or an interrupt has been acted on, and KILL before the hard deadline
  is armed; nothing is sent without such a cause, no timeout is declared before it is over, no KILL
  falls due before the grace period is over, and the leader is not given up before grace and
  reap allowance are over. The cleanup after an exception always sends both signals.
- **Cancellation** (`BatchCancel`). After a cancel signal every supervised child is marked and its
  group is sent TERM, and at most one more child is started.
- **Group retirement** (`GroupRetirement`). A scan looks at one pid after the other while the group
  goes on forking and exiting. The quiet verdict of two agreeing scans is right for every course of
  events **if and only if** at most one thing happens between listing one pid and reading another
  in the second scan; a concrete member escapes both scans otherwise. An ascending scan that reads
  as it lists cannot be escaped without pid wrap-around, and a group that is settled stays so.
- **Capture** (`Capture`). The two bounded buffers refine one stream of bytes cut at the limit.
- **Gate scheduling and receipts** (`GateRecord`, `GateScheduler`, `GateRunner`, `GateReceipt`,
  `GateContract`, `GateQualification`). Every selected gate gets exactly one justified result; a stop
  is never undone, nothing is held back without one, and nothing is started with a spent budget. The
  verdict of a gate, the two verdicts of a receipt and the problems of an arbitrary receipt are given
  by iff-tables over the process's own lines and the records. A scope-qualified receipt validates again on the
  unchanged source exactly when no skipped id is empty and no selected gate of this platform has an
  explicitly null `status_line`.
- **Raw-run analysis** (`RawRun`, `RawLedger`, `RawAnalysis`, `RawMeaning`). Ten families of running
  counters are counts over the same rows, and so satisfy the conservation equations. `RawMeaning`
  says what every number of a report is: the size of a set of row positions, given by the raw
  dispositions and times.
- **Statistics** (`Binomial`, `Quantile`, `QuantileInterval`). The outward ratio recurrence from any
  mode is the binomial distribution, and the reported ranks cover at least 0.95 of it.
- **Schedules and workloads** (`Scenario`, `UniformRate`, `DoubledRate`, `Workload`). Two
  scenarios are the same workload **exactly when** their fixed fields agree and every body has the
  same share of the offers in both.
- **Study plan and ledger** (`StudyPlan`, `StudyLedger`), **framing** (`SourceFraming`), **test
  traces** (`TestTrace`), **import search** (`ImportGraph`), **fence extraction** (`DocFences`).

Conventions: an exception is an `Err` or an error value. SHA-256 is a function assumed
collision-free where a lemma says so. Floating point is exact `real` arithmetic. JSON is already
parsed. Loops of the source are loops here, objects it mutates are classes, and interruptible code
is a step machine.

Where code and promise disagree, the model follows the code:

- An inventory entry with `"status_line": null` passes the runner without a line, but the validator
  of a saved receipt then asks for one, so an otherwise qualified receipt is refused
  (`NullLineBreaksRoundTrip`). `ReceiptRoundTrip` gives the exact condition.
- A gate without `platforms` is accepted by the runner, but makes the inventory unreadable for the
  platform scope, so a receipt can be qualified without being scope-qualified
  (`NoPlatformsBreaksScope`). `QualifiedImpliesScoped` gives the exact condition.
- A signal that `run_process` receives is lost when the call then raises. With a byte limit, as
  `collect` sets it, that is the leader that does not exit after the kill
  (`InterruptedRunMayGiveUp`); without one, as for gates, also undecodable output
  (`InterruptedRunMayRaise`). `collect` then launches the next attempt (`SignalIsLost`, exact
  condition in `StopsExactly`), and a gate run with keep_going starts the next gate (exact
  condition in `SignalStops`).
- Signals in quick succession can arm the grace deadline more than once on interrupt
  (`InterruptsMayArmOften`, exact condition in `ArmOrder`).
- Two agreeing group snapshots do not exclude a live member (`EscapesBoth`, exact condition in
  `VerdictExactlyRight`).
- An exception with an empty text is logged by `collect` as completed, and `verify` then refuses the
  collector's own ledger (`EmptyTextIsRefused`). `CollectedIsAdmitted` gives the exact condition.
- The order in which the grace deadline is armed, and custody in a batch, as described above.
- In `run_process` the fallback that arms the grace deadline before the loop is dead code
  (`EarlyFallbackIsDead`), and so is the conservation guard of `analyze_raw`
  (`SettlementConserved`), which the model therefore leaves out.

## Model

| member | source | states |
|---|---|---|
| SupervisorCustody.CustodySafety | tools/process_supervisor.py:617-821 | in every run, over all interleavings of statements, handlers, exceptions and clock, no group signal is issued after the leader was reaped, reaped implies retired, and a run returns only with the leader reaped |
| SupervisorCustody.NextKeepsCustody | tools/process_supervisor.py:641-656 | every single event keeps the custody invariant, including a handler suspended between its guard and its kill |
| SupervisorCustody.MainKeepsCustody | tools/process_supervisor.py:776-802 | every statement of the main program, on the normal and on the exception path, signals only a held leader and retires before it reaps |
| SupervisorCustody.CancelKeepsCustody | tools/process_supervisor.py:641-656 | every statement of a handler signals only past a guard that still holds |
| SupervisorCustody.CaptureThroughout | tools/process_supervisor.py:732-775 | in every run the capture is the bounded capture of all bytes received, and a returned result with overflow is marked as aborted |
| SupervisorSettlement.SettlementBound | tools/process_supervisor.py:649-762 | in every run the loop is left by timeout + 2 (grace + reap) + 8 turns, even if no pipe ever closes and the leader never exits |
| SupervisorSettlement.TurnBound | tools/process_supervisor.py:688-762 | the number of loop turns times the least length of a turn is bounded by the configured times |
| SupervisorSettlement.NextKeeps | tools/process_supervisor.py:688-762 | every event keeps the bounds on the turn start, the grace deadline and the hard deadline for the current degree of escalation |
| SupervisorSettlement.EarlyFallbackIsDead | tools/process_supervisor.py:684-687 | when the early fallback is reached, the handler has already armed the grace deadline |
| SupervisorEscalation.EscalationSignals | tools/process_supervisor.py:641-717 | in every run, inside the loop: the hard stop implies that KILL was sent; a timeout or abort, past its arming branch, that TERM was; a recorded interrupt with no handler active that TERM was, and a repeated one that KILL was; any signal has one of these causes, and every signal went to a held leader |
| SupervisorEscalation.CleanupSignals | tools/process_supervisor.py:792-802 | an exception path that marks and reaps has sent TERM and KILL |
| SupervisorEscalation.EscalationTakesTime | tools/process_supervisor.py:683-791 | no timeout before start + timeout, no hard stop before the grace period has passed since an arming, no giving up before grace + reap; a run returns only with the leader gone and the pipes closed, and pipes are closed only at their end or by the hard stop |
| SupervisorEscalation.LeftInTime | tools/process_supervisor.py:683-762 | the clock inside the loop never passes the recorded start + timeout + 2 (grace + reap) + 8 turns |
| SupervisorArms.ArmOrder | tools/process_supervisor.py:649-717 | with at most one handler past the test the grace deadline is armed at most three times, each cause at most once; with no handler active and no exception this is an iff, and the order is abort, timeout, interrupt iff, besides, no interrupt cut into a branch that has since armed |
| SupervisorArms.RunIsLogged | tools/process_supervisor.py:649-717 | in every run the log of arms is exactly what the flags and the number of handlers that have armed tell |
| SupervisorRuns.InterruptMayCutIn | tools/process_supervisor.py:656-710 | a concrete run in which the interrupt arms before the timeout does |
| SupervisorRuns.InterruptsMayArmOften | tools/process_supervisor.py:649-656 | for every m a concrete run in which m interrupts arm the deadline one after the other |
| SupervisorRuns.InterruptedRunMayRaise | tools/process_supervisor.py:763-802 | a concrete run that received a signal and raises while decoding, so that no result reports the signal |
| SupervisorRuns.InterruptedRunMayGiveUp | tools/process_supervisor.py:756-802 | for every byte limit a concrete run that received a signal and raises because the leader outlives the kill |
| BatchCustody.BatchCustodySafety | tools/process_supervisor.py:427-560 | for every number of commands: no run signals a group after its leader was reaped, if and only if there is no command or the cleanup loop cannot fail |
| BatchCustody.RunKeeps | tools/process_supervisor.py:427-560 | custody of every child in every run whose cleanup loop does not fail, with the handler anywhere in its walk over the children |
| BatchCustody.PollKeeps | tools/process_supervisor.py:482-527 | visiting one child retires it before reaping it and leaves the pending children exactly the started, unretired ones |
| BatchCustody.SignalsReaped | tools/process_supervisor.py:436-448 | an interrupt after a failed cleanup signals a group whose leader was reaped |
| BatchCustody.SafeIfCleanupCompletes | tools/process_supervisor.py:535-554 | each single run in which no exception arises inside the cleanup loop keeps custody, though others may not |
| BatchCustody.ReturnReapsAll | tools/process_supervisor.py:509-560 | a batch that returns has reaped every child it started, whether or not the cleanup loop can fail |
| BatchClock.TimedRunIsRun | tools/process_supervisor.py:482-534 | every run with the clock is a run of the plain machine, so custody and cancellation hold with the clock |
| BatchClock.TimedCustody | tools/process_supervisor.py:427-560 | custody in every run with the clock |
| BatchSettlement.BatchSettlementBound | tools/process_supervisor.py:436-534 | in every run a supervised unretired child is left by its timeout, or the loop's start if later, + 2 (grace + reap) + 7 turns |
| BatchSettlement.NextHolds | tools/process_supervisor.py:436-534 | every event keeps the bounds on one child's deadlines, with the handler anywhere in its walk |
| BatchEscalation.BatchSignals | tools/process_supervisor.py:490-528 | for every child under supervision: an armed hard deadline implies that it was sent KILL, a timeout past its arming that it was sent TERM; nothing was sent without a timeout or a received signal, and no KILL without the end of the grace period or a repeated signal |
| BatchEscalation.AgainKillsAll | tools/process_supervisor.py:436-441 | a handler of a repeated signal that has finished its walk has sent KILL to every child it may signal |
| BatchEscalation.CleanupSignalsAll | tools/process_supervisor.py:535-542 | the cleanup marks a held child only after sending it TERM and KILL |
| BatchEscalation.BatchTakesTime | tools/process_supervisor.py:490-528 | no child is timed out before its own start + timeout, killed before the grace period is over, or given a hard deadline before grace + reap |
| BatchCancel.NoChildEscapes | tools/process_supervisor.py:436-478 | once the signal is recorded and no handler is active, every supervised unretired child is marked and was sent TERM; at most one child is started after the signal |
| BatchCancel.NextReaches | tools/process_supervisor.py:436-478 | every event keeps what the walking handlers have told, and allows one walk at a time, though several handlers may have passed the test |
| GroupRetirement.AwaitKilledGroupQuiescence | tools/process_supervisor.py:266-279 | completes exactly if some quiet round precedes every late one |
| GroupRetirement.RetireOwnedGroup | tools/process_supervisor.py:282-302 | each verdict exactly: quiescent iff stable and nobody alive, killed iff stable, alive, killed and quiet in time, inaccessible iff the kill failed; at most one kill, none when quiescent |
| GroupRetirement.VerdictExactlyRight | tools/process_supervisor.py:239-263 | for any two scans, one after the other: their quiet verdict is right for every course of events iff in the second at most one thing happens between listing one pid and reading another |
| GroupRetirement.EscapesBoth | tools/process_supervisor.py:173-256 | a member that escapes both scans when two things happen between listing it and reading its parent |
| GroupRetirement.CaughtMeansSettled | tools/process_supervisor.py:259-263 | nobody is alive at the end of a quiet scan if every parent that forks a child too late to be listed is read by the next moment |
| GroupRetirement.AscendingScanIsFinal | tools/process_supervisor.py:173-207 | a quiet ascending scan that reads each pid before listing larger ones is right without pid wrap-around, and stays right while the leader is held |
| GroupRetirement.StableMeansSame | tools/process_supervisor.py:239-256 | stable snapshots agree on members, births and groups, and show the exited leader |
| GroupRetirement.StableExactly | tools/process_supervisor.py:239-256 | two snapshots are stable iff both succeeded, list the same pids with the same births and groups, and show the leader exited; the second is kept |
| GroupRetirement.LivenessExactly | tools/process_supervisor.py:228-236 | which state letters, thread counts and status numbers mean that a member is alive |
| Capture.Buffers.Take | tools/process_supervisor.py:729-746 | one read updates the buffers as the specification of a read says |
| Capture.CaptureAll | tools/process_supervisor.py:729-746 | the buffers, updated read by read, end up with the first M bytes of the interleaved stream |
| Capture.CaptureRefines | tools/process_supervisor.py:729-746 | after any reads the buffers hold the first M bytes of the interleaved stream, split by stream, and overflow tells exactly whether there were more |
| Capture.CaptureIsPrefix | tools/process_supervisor.py:729-746 | each captured stream is a prefix of what was read on it, together at most M bytes, all of them when there is no overflow |
| GateRecord.WaveMembersApply | tools/gates/run.py:590-611 | wave members run on every platform, so the skip inside a wave is unreachable |
| GateScheduler.RunSelectedGates | tools/gates/run.py:495-713 | one result per selected gate in order for every selection, budget, answer and blocker; every start, skip and refusal is justified by the results before it, nothing is started with a spent budget, a serial gate that is reached carries its answer or, iff its budget is spent, the exhausted record, and at most one gate of the run is blamed for a spent budget |
| GateScheduler.RunSerial | tools/gates/run.py:526-547 | a serial gate that nothing stops is started iff its budget is not spent, and keeps the scheduler's invariant |
| GateScheduler.RunBatch | tools/gates/run.py:612-674 | a batch answers in selection order; a spent first budget fails the first gate, blocks the others on it and starts nothing |
| GateScheduler.RecordBatch | tools/gates/run.py:675-692 | recording a batch blames at most one gate for a spent budget and keeps the invariant |
| GateScheduler.RunWave | tools/gates/run.py:588-701 | a wave accounts for all its members, also after a blocked batch |
| GateScheduler.NothingStartsAfterStop | tools/gates/run.py:679-712 | nothing is started after a stopping result except beside it in its batch of four |
| GateScheduler.BlockerIsNeverLifted | tools/gates/run.py:513-586 | no start follows a refused start |
| GateScheduler.BlockedNamesEarlier | tools/gates/run.py:515-524 | a blocked gate names the preflight, an earlier interrupt, or an earlier gate that stops the run |
| GateScheduler.ClearGateRuns | tools/gates/run.py:582-713 | when nothing before it stops the run, an approved gate of this platform is run or finds its budget spent; keep_going never blocks on a plain failure |
| GateScheduler.BudgetDecides | tools/gates/run.py:526-547 | a serial gate of this platform is blocked iff something before it stops the run; otherwise it carries the exhausted record if its budget is spent and its own answer if not |
| GateScheduler.WaveBudget | tools/gates/run.py:612-674 | a gate run in an unbatched wave had budget left and carries its own answer |
| GateScheduler.PolicyDecides | tools/gates/run.py:553-586 | a gate of an unapproved group fails, one of other platforms is skipped, and any other is blocked, out of time or answered by a runner |
| GateScheduler.RanCarriesOwnAnswer | tools/gates/run.py:674-677 | with distinct ids a started gate carries its own runner's answer |
| GateRunner.RetainedLineQualifies | tools/gates/status_line.py:10-38 | the retained status line qualifies by itself |
| GateRunner.FinalLineIsLast | tools/gates/status_line.py:10-13 | the verdict line is the one that starts with the marker and has no such line after it; there is none iff no line starts with it |
| GateRunner.GateVerdict | tools/gates/run.py:413-492 | PASS, NOT_RUN, exit code, signal and report of a gate as an exact table of exit code, interrupt, timeout, last line and report |
| GateRunner.PassIsBacked | tools/gates/run.py:413-492 | a PASS always carries exit 0, no interrupt, a supporting report, and comes from a process whose own last marked line qualifies |
| GateReceipt.PlatformScopeQualification | tools/gates/run.py:88-138 | the loop computes the specified scope and exclusions |
| GateReceipt.ScopeLoopExact | tools/gates/run.py:103-138 | the scope is qualified iff every required gate is a clean pass or a declared skip, and excludes exactly those that did not pass |
| GateReceipt.OnlyUnqualifiedZeroIsRejected | tools/gates/run.py:141-186 | of all records a run can leave, the contract check rejects exactly NOT_RUN with exit code 0 |
| GateReceipt.ReceiptRoundTrip | tools/gates/run.py:189-307 | a scope-qualified receipt of a full selection validates on the unchanged source iff no skipped id is empty and no selected gate of this platform has a null status line |
| GateReceipt.QualifiedAgrees | tools/gates/run.py:940-983 | the validator re-derives the same `qualified` |
| GateReceipt.QualifiedImpliesScoped | tools/gates/run.py:955-983 | a qualified receipt is scope-qualified iff the inventory gives every gate its platforms, once |
| GateReceipt.AcceptanceIsSound | tools/gates/run.py:189-307 | an arbitrary receipt without problems is for this host and clean source, settles every required gate, and claims qualification only if all required gates passed |
| GateContract.VerdictsExactly | tools/gates/run.py:940-983 | qualified and scope-qualified, each as an iff over the records: undisturbed source and run, every required gate passed or settled, and for a full run nothing skipped or failed |
| GateContract.AcceptanceExactly | tools/gates/run.py:189-307 | an arbitrary receipt has no problem iff it is admissible, which is spelled out clause by clause |
| GateQualification.PreflightExactly | tools/gates/run.py:716-731 | which selections refuse a dirty source |
| GateQualification.ScheduledResultsAreProduced | tools/gates/run.py:933-945 | scheduler results are records that running the same gate can produce |
| GateQualification.Qualify | tools/gates/run.py:716-731 | selection, scheduling and receipt composed: for whatever the runner answers the round trip holds iff two conditions on selection and host do, and a qualified receipt is scope-qualified iff the inventory is readable; a dirty source starts nothing and qualifies nothing |
| GateQualification.NoPlatformsBreaksScope | tools/gates/run.py:70-107 | a concrete gate without platforms whose receipt is qualified and not scope-qualified |
| GateQualification.SignalStops | tools/gates/run.py:331-355 | a gate that received a signal stops the run iff its supervisor settled or the run does not keep going |
| GateQualification.NullLineBreaksRoundTrip | tools/gates/status_line.py:131-171 | a concrete passing gate whose receipt is refused |
| RawRun.AcceptedIsSound | tools/bench/host_perf.py:766-896 | what the checks of one row guarantee about its times, class and disposition |
| RawLedger.SettlementPartition | tools/bench/host_perf.py:812-895 | every intended row is settled exactly once |
| RawLedger.CutPartition | tools/bench/host_perf.py:876-895 | at the cut every submitted row has responded, was dropped, or waits |
| RawLedger.BucketInRange | tools/bench/host_perf.py:679-683 | the bucket of any time before the cut exists |
| RawLedger.ColumnTotals | tools/bench/host_perf.py:774-889 | a column summed over the intervals counts the rows that show it before the cut |
| RawLedger.CohortOutcomesSum | tools/bench/host_perf.py:896-896 | the nine outcomes of a cohort sum to its intended rows |
| RawLedger.CohortGoodputOrder | tools/bench/host_perf.py:867-874 | SLO successes, successes and intended rows of a cohort are ordered |
| RawLedger.CohortsPartitionRows | tools/bench/host_perf.py:793-794 | the cohorts partition the population |
| RawAnalysis.RecordRow | tools/bench/host_perf.py:774-889 | one row adds one to exactly the buckets its times fall in |
| RawAnalysis.CountRow | tools/bench/host_perf.py:793-896 | after one more row every counter family counts the rows so far |
| RawAnalysis.CountRows | tools/bench/host_perf.py:766-896 | the row loop succeeds iff every row passes, and then every counter is a count over all rows |
| RawAnalysis.AnalyzeRaw | tools/bench/host_perf.py:640-934 | accepts iff all checks pass and the run's own records are the counts over its rows; the report's counters are counts over the same rows |
| RawMeaning.RowExactly | tools/bench/host_perf.py:766-895 | a row passes iff its order, identity, times and disposition are as stated for its disposition |
| RawMeaning.SettingExactly | tools/bench/host_perf.py:653-694 | the setting is accepted iff windows, intervals and classes are as stated |
| RawMeaning.SettingMeans | tools/bench/host_perf.py:653-694 | the cut, the interval and the SLO of each class that the rows are judged by, in nanoseconds |
| RawMeaning.OutcomesExactly | tools/bench/host_perf.py:843-896 | each of the nine outcome entries of a cohort is the number of its rows with that disposition, terminals written out |
| RawMeaning.GoodputExactly | tools/bench/host_perf.py:867-874 | the cohorts of a report are those that have rows; intended, success and SLO success are the numbers of rows, of successful rows and of successful rows within the SLO |
| RawMeaning.SettlementExactly | tools/bench/host_perf.py:812-895 | each settlement counter is the number of rows with that disposition |
| RawMeaning.CutExactly | tools/bench/host_perf.py:876-895 | each counter at the cut is the number of rows that responded or were dropped before it |
| RawMeaning.IntervalExactly | tools/bench/host_perf.py:666-683 | each of the eight columns of interval k is the number of rows whose event falls in [k, k + 1) intervals |
| RawMeaning.CountersExactly | tools/bench/host_perf.py:910-925 | the run's class counters are accepted iff they name the classes, count the started rows, and admit between started and submitted |
| RawAnalysis.SettlementConserved | tools/bench/host_perf.py:897-900 | settlement and cut equations hold, so the guard cannot fire |
| RawAnalysis.IntervalsConserved | tools/bench/host_perf.py:666-683 | interval columns sum to the cut counts |
| RawAnalysis.IntervalResponses | tools/bench/host_perf.py:877-880 | in an interval successes and rejections are disjoint responses |
| RawAnalysis.CohortConserved | tools/bench/host_perf.py:939-966 | per cohort: outcomes sum to intended, SLO success <= success <= intended, one latency per success |
| RawAnalysis.CohortsConserved | tools/bench/host_perf.py:939-966 | the cohorts of a report account for every intended row |
| RawAnalysis.CohortQuantilesOrdered | tools/bench/host_perf.py:936-966 | p50 <= p95 <= p99 |
| Quantile.SortCorrect | tools/bench/host_perf.py:936-937 | the sort is ordered and a rearrangement |
| Quantile.NearestIsQuantile | tools/bench/host_perf.py:936-937 | the nearest-rank value occurs in the sample, at least a fraction q is no larger and less than q is smaller |
| Quantile.NearestMonotone | tools/bench/host_perf.py:936-937 | quantiles of one sample are ordered like their levels |
| Binomial.ChooseRatio | tools/bench/host_admission.py:155-158 | neighbouring binomial coefficients have the ratio the recurrence uses |
| Binomial.PmfRatio | tools/bench/host_admission.py:155-158 | neighbouring binomial masses have the ratio the recurrence uses |
| Binomial.MassesSumToOne | tools/bench/host_admission.py:159-159 | the binomial theorem: the masses sum to one |
| QuantileInterval.Fill | tools/bench/host_admission.py:153-158 | from any starting index the array is proportional to any sequence that obeys the ratios |
| QuantileInterval.NormalisedMasses | tools/bench/host_admission.py:152-161 | divided by its sum the array is the binomial distribution, whatever the starting index |
| QuantileInterval.ScanRanks | tools/bench/host_admission.py:159-167 | both ranks are always found and are the first to reach 0.025 and 0.975 |
| QuantileInterval.RanksUnique | tools/bench/host_admission.py:159-167 | the ranks are determined by n and p |
| QuantileInterval.RankPairCovers | tools/bench/host_admission.py:159-167 | the masses between the ranks sum to at least 0.95 |
| QuantileInterval.Compute | tools/bench/host_admission.py:146-173 | fails iff the sample is empty; otherwise reports the quantile and the order statistics at those ranks |
| QuantileInterval.ReportCovers | tools/bench/host_admission.py:168-173 | lower < upper <= n + 1, coverage at least 0.95, an ordered interval of nonnegative width |
| UniformRate.ArrivalGap | tools/bench/scenario_grid.py:52-67 | consecutive arrivals are floor or ceiling of 10^9 / rate apart |
| UniformRate.ArrivalSecond | tools/bench/scenario_grid.py:52-67 | an arrival falls in the second of its index |
| UniformRate.AcceptedShape | tools/bench/scenario_grid.py:25-70 | what an accepted rate point keeps of its template |
| UniformRate.AcceptedExactly | tools/bench/scenario_grid.py:25-70 | a rate point is made iff the rate is positive, the source is a template, and offers, id and size stay within their limits; what it then contains |
| UniformRate.DigitsValue | tools/bench/scenario_grid.py:54-60 | the rate in the id is written in decimal without leading zeros |
| UniformRate.AcceptedSchedule | tools/bench/scenario_grid.py:52-67 | accepted arrivals strictly increase inside the window |
| UniformRate.SecondHoldsRate | tools/bench/scenario_grid.py:52-67 | every whole second receives exactly `rate` arrivals |
| UniformRate.AcceptedSecond | tools/bench/scenario_grid.py:52-67 | the same for the offers of an accepted point |
| UniformRate.DeclaredRate | tools/bench/host_compare.py:188-196 | an accepted point satisfies the declared-rate equation |
| DoubledRate.DoubledGeneratorScenario | tools/bench/scenario_rate.py:14-47 | accepts exactly the admissible sources with even, ordered arrivals in the window, and returns the doubled scenario |
| DoubledRate.DoubledOrdered | tools/bench/scenario_rate.py:28-47 | the doubled schedule is ordered and stays in the window |
| DoubledRate.ArrivalCurveDoubles | tools/bench/scenario_rate.py:28-47 | N2(t/2) = N(t) and N2(W/2 + t/2) = n + N(t) |
| DoubledRate.DoubledTimesAreTimes | tools/bench/scenario_rate.py:28-47 | the offers of the doubled scenario carry exactly those times |
| DoubledRate.DoubledMeans | tools/bench/scenario_rate.py:28-47 | each offer i of the source occurs at half its time and again half a window later, with the same body; everything else but id and record bound is kept |
| Workload.SignaturesAreProper | tools/bench/host_compare.py:101-119 | every signature that is produced has a nonempty mix over its own kinds |
| Workload.SignedExactly | tools/bench/host_compare.py:101-119 | a signature is produced iff there are offers and all are single offers |
| Workload.SameWorkloadExactly | tools/bench/host_compare.py:101-131 | two scenarios are accepted as one workload iff topology, classes, window, outstanding limit and other load fields agree and every body has the same proportion in both; arrival times, ids and record bounds never matter |
| Workload.SameWorkloadIsEquivalence | tools/bench/host_compare.py:122-131 | the one-sided mix check is an equivalence |
| Workload.FirstPointSuffices | tools/bench/host_compare.py:196-205 | checking each point against the first makes all pairs agree |
| Workload.DoubledIsSameWorkload | tools/bench/host_compare.py:101-131 | an accepted source and its doubled replay are the same workload |
| Workload.RatePointsShareWorkload | tools/bench/host_compare.py:101-131 | any two rate points of one template are the same workload |
| StudyPlan.EvenPerRate | tools/bench/host_study.py:105-113 | the role check makes every rate's attempts even in number, so the two-element reading cannot fail |
| StudyPlan.PairedMeansRoles | tools/bench/host_study.py:105-121 | plans in acquisition order pass the role check |
| StudyPlan.CheckRoles | tools/bench/host_study.py:105-109 | the counter accepts iff every role occurs once and has its partner |
| StudyPlan.CheckPairs | tools/bench/host_study.py:112-121 | the pair loop accepts iff the attempts are adjacent pairs 0, 1, 2, ... with both arms |
| StudyPlan.ParsePlan | tools/bench/host_study.py:40-122 | accepts iff ids are distinct, values usable, and every rate is paired in acquisition order |
| StudyLedger.OutcomeMeaning | tools/bench/host_study.py:167-231 | completion without a reason is recorded iff a launched run settled undisturbed with exit 0 and all artifacts; completion with a reason iff an exception had no text; an exit code iff a process settled with one; the two outputs always |
| StudyLedger.CollectOne | tools/bench/host_study.py:159-234 | one attempt appends a started and a terminal event to the chain |
| StudyLedger.Collect | tools/bench/host_study.py:152-243 | exactly 2N chained events in plan order; the supervisor is called for exactly the attempts with good inputs before which no settled attempt reported an interrupt |
| StudyLedger.NothingAfterInterrupt | tools/bench/host_study.py:169-170 | a reported interrupt is never forgotten |
| StudyLedger.StopsExactly | tools/bench/host_study.py:191-211 | nothing is launched after a received signal iff no attempt loses the first signal by raising while launchable attempts remain |
| StudyLedger.SignalIsLost | tools/bench/host_study.py:191-211 | a concrete signal that ends in an exception, after which the next attempt is launched |
| StudyLedger.Verify | tools/bench/host_study.py:246-345 | accepts iff the log is admitted, and reports exactly the failed attempts |
| StudyLedger.FailedExactly | tools/bench/host_study.py:246-345 | exactly the attempts whose terminal record says failed are listed, each once and in order |
| StudyLedger.AdmittedExactly | tools/bench/host_study.py:246-344 | a log is admitted iff plan, count, last digest and every chain link fit and each attempt has its started and terminal record |
| StudyLedger.CollectedIsAdmitted | tools/bench/host_study.py:210-243 | the collector's own log is accepted iff every attempt is accountable |
| StudyLedger.EmptyTextIsRefused | tools/bench/host_study.py:210-231 | a concrete exception without text whose ledger is refused |
| StudyLedger.ChainDeterminesEvent | tools/bench/host_study.py:125-149 | with a collision-free hash the length and last digest fix every event |
| StudyLedger.FinalRecordDeterminesLog | tools/bench/host_study.py:285-344 | two logs admitted under one final record are equal |
| SourceFraming.IntegerRoundTrip | tools/qualification/evidence.py:120-122 | fixed-width integers are recovered |
| SourceFraming.FrameLayout | tools/qualification/evidence.py:120-122 | a frame is the length in eight bytes, then the data |
| SourceFraming.RecordLayout | tools/qualification/evidence.py:124-136 | a record is its framed path, its tag, and what the tag calls for |
| SourceFraming.RecordRoundTrip | tools/qualification/evidence.py:124-136 | a record is recovered from the front of any stream, and nothing after it is eaten |
| SourceFraming.StreamRoundTrip | tools/qualification/evidence.py:124-136 | decoding inverts encoding on every record sequence |
| SourceFraming.StreamInjective | tools/qualification/evidence.py:115-137 | equal streams come from equal records |
| SourceFraming.DigestIdentifiesTree | tools/qualification/evidence.py:115-137 | equal digests come from equal trees |
| SourceFraming.Digest.FrameUpdate | tools/qualification/evidence.py:120-122 | feeds the frame, or nothing on overflow |
| SourceFraming.Digest.Feed | tools/qualification/evidence.py:124-136 | feeds exactly one record's encoding |
| SourceFraming.SourceTreeStream | tools/qualification/evidence.py:115-137 | the bytes fed are the stream of the records; fails iff a record is not encodable |
| TestTrace.ExpectedBySuite | tools/gates/rust_test_evidence.py:101-119 | accepts iff the selection is consistent, with the right case count per suite |
| TestTrace.AdvanceIsExact | tools/gates/rust_test_evidence.py:127-177 | an event is accepted iff it keeps its own key on track |
| TestTrace.AcceptTrace | tools/gates/rust_test_evidence.py:120-190 | accepts iff the trace interleaves one good pair per case and per nonempty suite |
| TestTrace.ExecutedCases | tools/gates/rust_test_evidence.py:90-190 | the whole acceptor is exact and returns the selection |
| TestTrace.VerdictIgnoresInterleaving | tools/gates/rust_test_evidence.py:90-190 | traces with the same order within every key get the same verdict |
| TestTrace.SwapKeepsProjections | tools/gates/rust_test_evidence.py:90-190 | swapping neighbours of different keys keeps the order within every key |
| ImportGraph.Search.Visit | tools/pm/check.py:185-199 | terminates; finishes the path and restores the visiting set, or raises an error the graph justifies |
| ImportGraph.CheckImports | tools/pm/check.py:185-202 | raises nothing iff every import is inventoried and the graph is acyclic, for every root order |
| ImportGraph.TopologicalMeansSound | tools/pm/check.py:188-199 | a finishing order of the whole inventory rules out cycles and dangling imports |
| ImportGraph.WalkCloses | tools/pm/check.py:191-192 | meeting a path under visit closes a cycle |
| DocFences.AttributeRoundTrip | tools/doc-examples/build.rs:49-93 | the spelling a kind reports selects that kind |
| DocFences.ClassifyExactly | tools/doc-examples/build.rs:76-93 | which info strings give which kind, and which are refused with which attribute |
| DocFences.TrimMeans | tools/doc-examples/build.rs:76-93 | trimming takes white space off both ends and nothing else |
| DocFences.SpaceExactly | tools/doc-examples/build.rs:76-79 | the white space characters, listed |
| DocFences.RustBlocks | tools/doc-examples/build.rs:118-158 | the loop computes the specified scan |
| DocFences.ExtractionInvertsEmbedding | tools/doc-examples/build.rs:118-158 | on any rendered document exactly the declared blocks, verbatim and in order; fails iff an attribute is unknown or the last fence is open |
| DocFences.CodeIsVerbatim | tools/doc-examples/build.rs:142-150 | splitting the code of a block at line ends gives back its lines |
| DocFences.ParseRender | tools/doc-examples/build.rs:118-158 | every input is the rendering of a valid document |
| DocFences.DeclaredNumbering | tools/doc-examples/build.rs:142-150 | indices are positions and opening lines increase |
| DocFences.DeclaredLines | tools/doc-examples/build.rs:127-136 | a reported line opens a fence of the block's kind |

## Left out

- The Rust engine, the host adapter and the fuzz oracles: the tools only drive them.
- Operating-system bindings (waitid, libproc, /proc, selectors): snapshots, leader exits, pipe reads and the clock are inputs.
- GroupRetirement.VerdictExactlyRight: a scan lists and later reads every pid, as on Linux; a pid is listed while it is in the group. The listing call of Darwin and scan errors are not part of it. Only live members change a group, and no process joins it from outside.
- SupervisorEscalation.EscalationTakesTime: the grace period counts from the start of the loop turn in which the deadline was first armed; a handler reads the clock at or after that. BatchEscalation.BatchTakesTime does the same.
- SupervisorSettlement.TurnBound: assumes a least turn length, which the source does not enforce: a turn takes no time when data is ready.
- File I/O, atomic publication, directory creation, git, cargo, printing and argument parsing.
- Field-by-field JSON shape checks; parsed values have the right types. In `analyze_raw` the version, status and id comparisons and the snapshot samples with their peaks are left out, as is the pooled latency list.
- Text patterns: how a status token or an execution report is judged is an abstract function shared by runner and validator. Messages are reduced to their kind.
- ProcessSupervisor: a condition of the loop is evaluated as one step. One loop turn, handlers included, takes at most a configured time; that replaces the poll interval and the selector's wait. Restoring handlers and closing pipes are not steps.
- ProcessBatch: a condition is evaluated as one step, and the handler's reading of the clock is one step with its recording of the signal; the reader threads are reduced to whether a capture has finished; the mark that a capture cut off after a kill sets is left out, since that child is already marked.
- BatchSettlement.BatchSettlementBound: one turn, with all visits, handlers and the wait for a killed group, takes at most a configured time; how long the launches take is not bounded.
- GroupRetirement.AwaitKilledGroupQuiescence: takes its rounds as an input that reaches the deadline; the length of the sleeps is not modelled.
- GateScheduler.RunSelectedGates: assumes that the runner labels each record with its gate's id; an exception of a runner is one of its possible answers, and the interrupts it speaks of are those that the records report. `remaining` is the budget each gate would see.
- GateReceipt.ReceiptRoundTrip: the source does not change during the run and the validation uses the same inventory, required list and host; sorted lists are kept as sets or multisets.
- StudyLedger.Collect: `events_sha256` and the bytes of an event are left out; a digest is a number and an event is hashed as a value.
- QuantileInterval.Compute: exact reals instead of floating point, and any probability strictly between 0 and 1.
- The `compare`, `admit`, `run_acquisition`, build, identity and summary scripts: mostly plumbing around digests that would only add easy members.
