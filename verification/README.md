# A verified model of cloud-image-tests

This project models the parts of the repository whose correctness does not show in any single
function, and proves what they promise: the `citrun` job scheduler with its recovery and
re-planning, the expansion of the job matrix, the step graphs that VM fixtures build, the pool of
projects tests run in, and the parser and printer of CPU sets. Verify it with
`dafny verify dfyconfig.toml`.

## How it is laid out

The scheduler is modelled twice. `Spec.dfy` and `ResumeSpec.dfy` define its state as a value and
every operation as a function on it; the lemmas are about these. `State.dfy`, `Scheduler.dfy`,
`Resume.dfy`, `Migration.dfy`, `Placement.dfy`, `Status.dfy` and `Refresh.dfy` hold classes and
loops in the form of the Go code, job records updated in place included, and each method is proved
to compute its function. A few methods are split where the Go function does several things in one
body (`pickZone` into `BeginSweep`, `GroupCandidates`, `BestOf`, `ChooseIn`; `handleCompletion` into
`Release`, `Abort`, `Classify`, `SettleClass`).

`Runs.dfy` turns the event loop into a state machine: a world is a scheduler with the clock and the
two contexts, an event is an admission pass, a container exit, a completion, a clock tick, a stop or
a kill. `Next` has the invariant `Inv` (`Invariants.dfy`) as a precondition and a postcondition, so
every statement about `After` is about every state a sequence of events reaches.
`Scheduling.LoopIsARun` connects the loop `Run` to these sequences.

- `Picking`, `Accounting`, `Steps`, `Completions`: zone selection, counters, and what each operation keeps.
- `Admission`, `Liveness`, `Returning`, `Termination`: work conservation, progress, the return of the
  loop, and the bound on launches.
- `Attempts`, `Rotation`: what launches and completions record, when a launch may happen, and turns of zones.
- `Sweeps`, `Backoff`, `QuotaFailures`: the stockout ledger, the cooldown arithmetic, and what quota failures close.
- `Recovery`, `ResumeRecords`: crashes and resumes over any history, and what a resume records.
- `Safety`, `Recount`: budgets and counters over any run, and the counters recomputed from the records.
- `Matrix`, `Planning`: matrix expansion, and which jobs a plan makes.
- `Graph`, `Fixtures`, `Numbering`, `Workflow`: step graphs. `Projects`: the project pool.
- `Cpuset`, `CpusetGrammar`, `Text`, `Decimal`: CPU sets, the lists accepted for them, and the string
  functions they need. `Names`, `Options`: zone names, sorting, and values that may be missing.

## Hypotheses the code does not enforce

- CPU cost, networks and subnets of a job are not negative, and the CPU cost is at most 2^30, where
  the headroom fold starts (`Budgets.ValidJob`); zones lie in regions with a non-empty name.
- Budget limits, network budgets and the container cap are not negative. The rest of
  `Budgets.ValidConfig` is what `Config.Validate` enforces (cmd/citrun/config.go:216-239).
- Progress needs every job alone to fit the network and subnetwork budgets, which plan time does not
  check (`Admission.FitsNetworks`), and a container cap of at least one.
- Quota windows are stated for a base of which 32 times fits a 64-bit duration (`Backoff.ShortWindows`).
- Starting a container is one step with recording its launch, saves succeed, and the clock stands
  still during one pass, one completion and one resume.
- A run is resumed under the configuration it was planned for, or refreshed for the new one. A resume
  sees every container that is still alive.
- A completion arrives only after its container has gone (`Completions.Due`); that no job has two
  containers rests on it.
- Quota steps keep their quotas: `WaitForQuota` and `Finalize` are not called once a VM called
  `for-vm-quota` or `for-disk-quota` (after underscores become dashes) has taken the name of a quota
  step for its wait step. The Go code dereferences a nil quota list in that case. Every other fixture
  is proved for such VMs too. Were rewiring to go on, it would close a cycle in every such graph
  (`Fixtures.TakenVMQuotaClosesCircle`, `Fixtures.TakenDisksQuotaClosesCircle`), and it closes none in
  any other (`Workflows.Workflow.Finalize`).
- `Resume` is called for a VM of the workflow, so the step that creates VMs exists.

One promise holds under an exact condition only: the total back-off of a job that only runs out of
stock is the geometric sum if and only if its longest cooldown fits a 64-bit duration
(`Backoff.TotalBackoff`; `Backoff.LongBackoffWraps` gives a configuration whose 28th cooldown would end
before it starts). And one thing may surprise: a subnetwork created after the last VM is not waited for
by VM creation, unlike a network or a firewall rule. The contract of `CreateSubnetwork` says so;
acyclicity does not depend on it.

## Model

| member | source | states |
|---|---|---|
| Picking.PickZoneCompleteAndOptimal | cmd/citrun/scheduler.go:175-225 | no zone is returned exactly when the sweep cooldown is active or no zone passes the sweep, quota and headroom tests; a returned zone passes them, differs from the avoided one unless that is the only one left, and no admissible zone lies in a region with more headroom, or as much and a smaller name |
| Picking.PickZoneFrame | cmd/citrun/scheduler.go:175-225 | choosing touches this job's sweep and sweep cooldown and the round-robin turn, nothing else |
| Picking.BestRegionLeads | cmd/citrun/scheduler.go:208-216 | the fold over the sorted regions finds the first one of greatest headroom among those that can hold the job |
| Picking.HeadroomIsLeast | cmd/citrun/scheduler.go:136-145 | headroom reaches a cost up to 2^30 exactly when every budget key has that much free |
| Steps.AdmissibleHasRoom | cmd/citrun/scheduler.go:127-145 | a zone that passes the tests has room for the job under every key it is charged to, halved limits included |
| Steps.AdmissibleIsFeasible | cmd/citrun/scheduler.go:166-173 | a zone chosen at run time fits the configured budget, so it is one a sweep must try |
| Rotation.PickZoneTakesTurns | cmd/citrun/scheduler.go:187-222 | the chosen zone is the one whose turn it is among the zones of its region that sweep, quota windows and avoidance leave; only that region's turn moves on, by one |
| Rotation.EveryZoneHasItsTurn | cmd/citrun/scheduler.go:218-221 | while a region offers the same zones, each is taken within as many turns as there are zones |
| Budgets.UsableWithinLimit | cmd/citrun/scheduler.go:127-134 | the usable budget lies between zero and the limit |
| Budgets.UsableIsFloor | cmd/citrun/scheduler.go:127-134 | the usable budget is the largest whole number within limit times safety factor |
| Budgets.KeysCharged | cmd/citrun/scheduler.go:117-125 | a job is charged to CPUS everywhere and to its own family exactly where the region has a limit for it |
| Budgets.FitsBothLimits | cmd/citrun/scheduler.go:166-173 | a region fits a job exactly when its CPU limit and, where there is one, its limit for the family do |
| Accounting.ChargeMovesMeters | cmd/citrun/scheduler.go:248-259 | charging and releasing move every counter by exactly the demand of the job |
| Accounting.TotalUpdate | cmd/citrun/scheduler.go:248-259 | changing one record changes the recomputed sum by the difference of its shares |
| Steps.LaunchKeepsAccounts | cmd/citrun/scheduler.go:270-288 | a launch keeps every counter equal to the sum over the records, and adds the job's demand |
| Completions.CompleteKeepsAccounts | cmd/citrun/scheduler.go:327-340 | a completion keeps them equal, and gives back exactly what the launch took |
| Safety.CountersAreRecomputable | cmd/citrun/scheduler.go:248-288 | along every run, planned, resumed or refreshed, each counter (CPU per region and key, networks, subnetworks, slots, slots per shape) equals the sum over the records whose last attempt is open, and those are the running ones |
| Recount.FamilyUseIsRecounted | cmd/citrun/scheduler.go:117-125 | in every reachable state what is in use of a family quota is the sum of the CPU costs of the jobs of that family whose last attempt is open in the region, and nothing is used where there is no limit |
| Recount.UseIsRecounted | cmd/citrun/scheduler.go:248-259 | the same for CPUS over all jobs out in the region, and for networks, subnetworks, containers and containers per shape |
| Recount.JobsOutFitTheLimits | cmd/citrun/scheduler.go:127-134 | so the jobs out in a region never cost more than limit times safety factor, of its CPUs or of any family, and what is out never exceeds the network, subnetwork and container limits |
| Safety.BudgetsAreNeverExceeded | cmd/citrun/scheduler.go:290-315 | along every run no charge exceeds the floor of limit times safety factor, and networks, subnetworks, container cap and a shared positive MaxParallel hold |
| Safety.PlannedRunsAreSafe | cmd/citrun/scheduler.go:248-315 | both hold in every state that any history of runs, crashes and resumes of a planned and validated run goes through |
| Safety.LaunchRespectsPenalties | cmd/citrun/scheduler.go:127-134 | each launch also stays within what is allowed at that moment, which is half while a quota penalty lasts |
| Invariants.NewSchedInv | cmd/citrun/scheduler.go:87-93 | a new scheduler on a valid run with nothing running satisfies the invariant |
| Steps.PickZoneKeepsInv | cmd/citrun/scheduler.go:175-225 | choosing a zone keeps the invariant |
| Steps.LaunchKeepsInv | cmd/citrun/scheduler.go:270-288 | launching a job the admission loop may launch keeps the invariant |
| Steps.AdmitKeepsInv | cmd/citrun/scheduler.go:290-315 | an admission pass keeps the invariant |
| Completions.CompleteKeepsInv | cmd/citrun/scheduler.go:327-376 | handling a completion that is due keeps the invariant |
| Completions.CompleteStatus | cmd/citrun/scheduler.go:343-374 | the status after a completion, class by class: requeued exactly below the cap of its class, failed_real after test failures, failed_infra otherwise; after a stockout failed_infra exactly when it completes the last sweep; requeued without counting when the jobs are killed |
| Attempts.CompletionIsRecorded | cmd/citrun/scheduler.go:327-376 | the attempt is closed with its end and class (or as aborted) in the zone and from the start it was launched with, all else in the record is kept except what the class asks for, and no other record changes; the caps count the attempts of the class |
| Attempts.CountIsNumber | cmd/citrun/scheduler.go:317-325 | what is counted is the number of attempts with that class |
| Completions.RecordStockoutSweepOK | cmd/citrun/scheduler.go:229-246 | after a stockout a feasible zone is left to try, or a sweep cooldown runs, or the job has failed |
| Termination.StockoutOutcome | cmd/citrun/scheduler.go:229-246 | a stockout rules out its zone and completes the sweep exactly when that was the last feasible one; the last sweep fails the job, an earlier one starts a cooldown |
| Admission.StuckStays | cmd/citrun/scheduler.go:301-312 | a job passed over stays passed over while others are admitted |
| Admission.AdmitConservesWork | cmd/citrun/scheduler.go:290-315 | after a pass the container cap is reached or no job still queued could be launched in the state the pass leaves |
| Admission.AdmitPasses | cmd/citrun/scheduler.go:290-315 | a pass only moves jobs from queued to running and only drops sweep cooldowns |
| Attempts.TurnOfAJob | cmd/citrun/scheduler.go:151-164 | a queued job starts exactly when it waits for no sweep, its shape and the networks have room, and some zone is left by the sweep, not closed to its family, and has room under both limits, halved ones included; it then has one more open attempt in such a zone, which after a stockout or quota failure is another one than before unless no other is open; any other job waits |
| Attempts.LaunchesOnlyWhenAdmitting | cmd/citrun/scheduler.go:290-315 | only an admission pass that is neither stopped, killed nor paused adds an attempt to a job, at most one, and not into a region closed to its family or during its sweep cooldown |
| Attempts.NoLaunchAfterTheStop | cmd/citrun/scheduler.go:290-293 | once admission has stopped or the jobs were killed no sequence of events launches anything |
| Attempts.HistoryStays | cmd/citrun/scheduler.go:270-376 | along every run attempts are only added, each keeps zone and start, and a closed one never changes |
| Admission.AdmitMakesProgress | cmd/citrun/scheduler.go:290-315 | with nothing running, some job queued and every timer expired, a pass launches a job |
| Runs.LaunchesBounded | cmd/citrun/scheduler.go:392-428 | along any sequence of events from any valid history a job is launched at most stockout times its feasible zones plus quota, timeout, infra, error and failure minus 4 times |
| Runs.NextUsesLaunches | cmd/citrun/scheduler.go:327-376 | no event lets the attempts made and the launches left add up to more |
| Termination.ClosingUsesOne | cmd/citrun/scheduler.go:317-325 | closing an attempt uses up one retry of its own class and none of the others |
| Termination.StockoutUsesOne | cmd/citrun/scheduler.go:229-246 | a stockout uses up exactly one of the stockouts a job has left, also when it completes a sweep |
| Termination.AdmitOneUsesLaunch | cmd/citrun/scheduler.go:290-315 | an admission turn uses up one launch exactly when it launches |
| Liveness.ReturnedRunIsSettled | cmd/citrun/scheduler.go:404-408 | when the loop may return nothing is running, and unless a context was cancelled every job is passed, failed_real, failed_infra or quarantined |
| Liveness.FairRunsReturn | cmd/citrun/scheduler.go:402-427 | every fair execution returns: the number of rounds in which a container completes or the timers run out is bounded by a rank of the starting state |
| Returning.LoopReturns | cmd/citrun/scheduler.go:392-428 | the loop has returned before the end of any script with more fair turns than that rank, a fair turn being one in which a container completes or, with none out, the timers run out |
| Sweeps.StockoutsAreCounted | cmd/citrun/scheduler.go:229-246 | for a fresh job, after every sequence of events, the swept zones are feasible and the stockouts number rounds times the feasible zones plus the swept ones, or exactly that product, all feasible zones being swept, while a sweep cooldown exists |
| Sweeps.LedgerHolds | cmd/citrun/scheduler.go:229-246 | the ledger that says so, and that each completed sweep tried every feasible zone once, survives every sequence of events |
| Sweeps.FreshLedger | cmd/citrun/state.go:47-58 | a fresh job satisfies it |
| Sweeps.FailsAfterExactlyAllSweeps | cmd/citrun/scheduler.go:237-245 | a fresh job that only runs out of stock has failed if and only if it made stockout times its feasible zones attempts, each sweep trying each zone once |
| Sweeps.TallyStockout | cmd/citrun/scheduler.go:229-240 | one more stockout in an untried zone keeps the ledger, whether or not it completes the sweep |
| Backoff.QuotaWindowsOverRuns | cmd/citrun/scheduler.go:378-390 | over any run a quota cooldown is not moved while it is active, its end never decreases, and it never ends more than 32 times the base ahead unless it did at the start |
| QuotaFailures.QuotaFailureSetsTimers | cmd/citrun/scheduler.go:364-367 | a quota failure sets the penalty to ten minutes from now and, unless the window of the family in the region is open, opens the next one; no other timer changes |
| QuotaFailures.OthersKeepTimers | cmd/citrun/scheduler.go:343-374 | no other completion touches penalties, windows or their count |
| QuotaFailures.QuotaFailureHalvesTheLimit | cmd/citrun/scheduler.go:127-134 | for ten minutes after a quota failure, whatever events follow, what is allowed of the family in that region is half of the usable budget |
| QuotaFailures.QuotaFailureClosesTheRegion | cmd/citrun/scheduler.go:200-203 | after a quota failure a window of the family in the region is open, and while it is, whatever events follow, no zone of that region is admissible for a job of the family |
| QuotaFailures.NthWindow | cmd/citrun/scheduler.go:378-390 | the n-th window a scheduler opens for a family in a region ends base times 2^(min(n,6)-1) after it was opened, after any sequence of events |
| Backoff.GrantedIsEarned | cmd/citrun/scheduler.go:236-246 | the back-off a job is granted over any run is what its completed sweeps earn |
| Backoff.TotalBackoff | cmd/citrun/scheduler.go:236-246 | a fresh job that failed for lack of stock was granted base times (2^(stockout-1) - 1) in all, if and only if its longest back-off fits a 64-bit duration |
| Backoff.LongBackoffWraps | cmd/citrun/scheduler.go:245-245 | with a base of two minutes and 29 sweeps the 28th back-off has wrapped around to a negative one |
| Migration.Migrate | cmd/citrun/scheduler.go:65-86 | walking the tables in any order yields the migrated table: sweep cooldowns as they were, each quota key until the latest of its old end and the unexpired old entries a recent quota attempt bears out, nothing else |
| Migration.MigrationIsUnique | cmd/citrun/scheduler.go:65-86 | there is only one such table |
| Migration.NothingToMigrate | cmd/citrun/scheduler.go:65-86 | a table without old entries stays as it is |
| Migration.RecentFailuresAreCarried | cmd/citrun/scheduler.go:71-85 | an attempt that ran into the quota less than 64 minutes ago, with an unexpired old entry for its series and region, keeps that region closed to its family at least until then; nothing else prolongs or makes a restriction |
| Migration.MigrationKeepsRun | cmd/citrun/scheduler.go:65-86 | migrating keeps a run valid |
| State.RunState.constructor | cmd/citrun/state.go:47-58 | a planned run: jobs in order, quarantined ones skipped, the others queued |
| State.JobRecord.CloseLastAttempt | cmd/citrun/scheduler.go:330-334 | the last attempt is closed in place, the others stay |
| State.RunState.Begin | cmd/citrun/scheduler.go:274-276 | the record becomes running with one more open attempt, other records stay |
| Scheduling.Scheduler.constructor | cmd/citrun/scheduler.go:65-93 | a new scheduler on the migrated run, with nothing charged and nothing in flight |
| Scheduling.Scheduler.QueuedRemaining | cmd/citrun/scheduler.go:105-113 | the number of queued jobs in the order |
| Scheduling.Scheduler.AllowedFor | cmd/citrun/scheduler.go:127-134 | computes what is allowed for a key in a region |
| Scheduling.Scheduler.HeadroomFor | cmd/citrun/scheduler.go:136-145 | computes the headroom of a region for a job |
| Scheduling.Scheduler.GroupCandidates | cmd/citrun/scheduler.go:187-206 | the candidate zones of a pass grouped by region, and their regions in order of appearance |
| Scheduling.Scheduler.BestOf | cmd/citrun/scheduler.go:207-213 | the best region of a list |
| Scheduling.Scheduler.BeginSweep | cmd/citrun/scheduler.go:178-186 | an expired sweep cooldown is dropped and the sweep emptied |
| Scheduling.Scheduler.ChooseIn | cmd/citrun/scheduler.go:187-222 | one pass: the zone chosen, and the round-robin turn advanced exactly when there is one |
| Scheduling.Scheduler.PickZone | cmd/citrun/scheduler.go:175-225 | computes the choice of Picking and its whole new state |
| Scheduling.Scheduler.SweepIsComplete | cmd/citrun/scheduler.go:235-239 | the sweep is complete exactly when every zone the job could fit has been ruled out |
| Scheduling.Scheduler.RecordStockout | cmd/citrun/scheduler.go:229-246 | computes the run after a stockout |
| Scheduling.Scheduler.ChargeJob | cmd/citrun/scheduler.go:248-259 | computes the counters after a charge |
| Scheduling.Scheduler.LaunchIn | cmd/citrun/scheduler.go:270-288 | computes the state after a launch, saved snapshot, goroutine and container included |
| Scheduling.Scheduler.AdmitTurn | cmd/citrun/scheduler.go:295-313 | one turn of the admission loop |
| Scheduling.Scheduler.Admit | cmd/citrun/scheduler.go:290-315 | the admission loop, which does nothing when stopped, killed or paused |
| Scheduling.Scheduler.CountAttempts | cmd/citrun/scheduler.go:317-325 | the number of attempts of a class |
| Scheduling.Scheduler.BumpQuotaCooldown | cmd/citrun/scheduler.go:378-390 | the cooldown of a quota key, unless it is active |
| Scheduling.Scheduler.SettleClass | cmd/citrun/scheduler.go:343-374 | the state after a completion of a class |
| Scheduling.Scheduler.HandleCompletion | cmd/citrun/scheduler.go:327-376 | the state after a completion, aborted or not |
| Scheduling.Scheduler.Finished | cmd/citrun/scheduler.go:406-406 | the exit test of the loop |
| Scheduling.Scheduler.Run | cmd/citrun/scheduler.go:392-428 | the event loop computes where its script leads and whether it returns |
| Scheduling.LoopIsARun | cmd/citrun/scheduler.go:392-428 | the loop leads where some sequence of events leads, and has returned only where it may |
| Resuming.AttachTo | cmd/citrun/resume.go:24-52 | the run after awaiting a container that outlived its scheduler |
| Resuming.ResumeTurn | cmd/citrun/resume.go:21-70 | the run after one job's turn, and whether it is queued |
| Resuming.PrepareResume | cmd/citrun/resume.go:16-73 | computes the recovered run and returns the number of queued jobs |
| Resuming.DryRunResumePlan | cmd/citrun/resume.go:77-100 | the requeue and attach lists in run order and both counts, without touching the state |
| ResumeSpec.ResumeKeepsRun | cmd/citrun/resume.go:16-73 | recovery keeps a run valid under any answers of the containers and leaves no listed job running |
| ResumeRecords.ResumeRecordsAnswers | cmd/citrun/resume.go:16-73 | what recovery writes: the answer of an awaited container closes the open attempt with its class and the time, a running job without a container ends orphaned and is queued, a failed_infra job starts afresh, a failed_real one is queued on request; all else is kept |
| ResumeRecords.AnswersAreCounted | cmd/citrun/resume.go:26-33 | so an awaited answer counts once more against the cap of its own class and of no other |
| ResumeRecords.ResumeKeepsCooldowns | cmd/citrun/resume.go:39-62 | recovery starts the cooldown of a sweep that an awaited stockout completes, drops those of failed_infra jobs, and leaves all others alone, quota windows included |
| ResumeSpec.ResumeFromOwnTurn | cmd/citrun/resume.go:16-73 | a job is queued afterwards exactly when the dry run announces it, or announces its container and the answer requeues it |
| ResumeSpec.PlanAgreement | cmd/citrun/resume.go:77-100 | the jobs queued after recovery are, in run order, the announced requeues and the announced attachments whose answers requeue them |
| Recovery.ResumeStarts | cmd/citrun/resume.go:16-73 | every container that outlived a crash is awaited, so the new scheduler starts with none and satisfies the invariant |
| Recovery.ContainersAreRecorded | cmd/citrun/scheduler.go:270-288 | over any history of runs, crashes and resumes every live container belongs to a job recorded on disk as running, and no job has two |
| Recovery.PassedIsNeverLaunchedAgain | cmd/citrun/resume.go:16-73 | over any such history a job recorded as passed keeps its status and its attempts |
| Recovery.RefreshedRunResumes | cmd/citrun/refresh.go:12-85 | after a refresh the resume starts from a scheduler that satisfies the invariant under the new configuration |
| Placement.RegionUsable | cmd/citrun/placement.go:25-35 | the usable budget of a region reaches a cost exactly when the run-time test accepts that cost there |
| Placement.EligibleRegions | cmd/citrun/placement.go:39-51 | the regions of the zones, each once, sorted |
| Names.ZoneRegionAsStated | cmd/citrun/config.go:204-210 | the region of a zone is what stands before its last dash |
| Names.StrLeAsStated | cmd/citrun/scheduler.go:207-213 | names are ordered lexicographically: a prefix first, else by the first difference |
| Placement.ValidatePlaceable | cmd/citrun/placement.go:121-168 | refuses exactly the jobs, in order, that are not quarantined and have no zone the run-time test accepts |
| Placement.PlannedRunIsValid | cmd/citrun/state.go:47-58 | a planned run that validation accepted starts out valid |
| Reporting.RegionOccupancy | cmd/citrun/status.go:37-54 | running jobs and CPUs per region by the open last attempts, and the sorted regions that have any |
| Reporting.RunningIsNumber | cmd/citrun/status.go:37-54 | what is reported as running in a region is the number of jobs whose last attempt is open there |
| Reporting.CountersMatchReport | cmd/citrun/status.go:37-54 | the scheduler's CPU counter of a region equals the CPUs the report derives, from memory or from disk |
| Refreshing.RefreshRunConfig | cmd/citrun/refresh.go:12-85 | succeeds exactly when the edited matrix expands, nothing runs, every job to replace is planned and placeable, and the files can be written; on any error nothing has changed, on success the run is the refreshed one |
| Refreshing.RefreshKeepsHistory | cmd/citrun/refresh.go:32-56 | order, statuses, attempts and passed or quarantined jobs are kept; all others carry the planned zones, cost and budget key with every other field of the job as before, an empty sweep and no sweep cooldown; quota windows stay |
| Refreshing.RefreshedRunIsValid | cmd/citrun/refresh.go:32-59 | the refreshed run is valid under the new configuration, whatever the old one was |
| Matrix.KeepJob | cmd/citrun/matrix.go:70-108 | kept exactly when no rule drops the job; then with the zones and timeout of the rules |
| Matrix.LastRuleWins | cmd/citrun/matrix.go:92-105 | zones and timeout come from the last rule that overrides them |
| Matrix.OrderOfRulesIsIrrelevant | cmd/citrun/matrix.go:70-108 | what is kept depends on which rules there are, not on their order |
| Matrix.ApplyQuarantine | cmd/citrun/matrix.go:110-123 | the reason of the last matching entry |
| Matrix.ExpandJobs | cmd/citrun/matrix.go:139-238 | succeeds exactly when all jobs of the matrix have distinct ids and the shape validation has its suite; returns the admitted ones in order |
| Matrix.ExpansionCommutesWithFiltering | cmd/citrun/matrix.go:139-238 | for the full tier a filtered expansion succeeds exactly when the unfiltered one does and gives its admitted jobs, in the same order, with distinct ids |
| Planning.PlannedJobs | cmd/citrun/matrix.go:139-238 | an expansion holds exactly the jobs the filter wants of the matrix and, in the full tier, of the shape validation |
| Planning.JobsOfCombination | cmd/citrun/matrix.go:153-205 | a job comes from a block, shape, image and suite exactly when they survive the rules and the tier, it costs the CPUs of the shape times the machines of the suite (at least one), charges the family of the shape, has the limits of shape and suite, the zones of tier, rules or shape (or one of them), the id made of them, and the right timeout and quarantine reason |
| Planning.ValidationJobAsStated | cmd/citrun/matrix.go:207-236 | a validation job carries cost, family and zones of its family, and no limits |
| Planning.KeptJobsSurvive | cmd/citrun/matrix.go:70-91 | kept means: the suite may use the shape, the shape may run the suite, and no drop rule covers shape, suite and image together |
| Planning.RuledAsStated | cmd/citrun/matrix.go:92-105 | zones and timeout are those of the last rule that names the shape (and suite), or else its own |
| Planning.TierAsStated | cmd/citrun/matrix.go:127-137 | the full tier takes every shape; another one the shapes it lists, each with the zones of its first entry |
| Planning.ImageAsStated | cmd/citrun/matrix.go:61-67 | a path stands for itself and goes by its last part; a bare name is looked up below the prefix |
| Planning.SeriesAsStated | cmd/citrun/matrix.go:38-43 | the series is the text before the first dash, or the shape itself |
| Graphs.RankedIsAcyclic | fixtures.go:232-275 | a graph whose edges lead down a ranking has no cycle |
| Graphs.TailEdgeKeepsGood | fixtures.go:706-816 | letting a step that nothing depends on wait for another keeps the graph acyclic and the chains linear |
| Graphs.ChainIsUnique | testworkflow.go:1672-1696 | the chain of dependents behind a step, and with it a VM's last step, is unique |
| Graphs.ChainGrows | fixtures.go:719-751 | a fresh step behind the last one makes the chain one step longer |
| Workflows.Workflow.GetLastStep | testworkflow.go:1672-1696 | the walk ends, never finds two dependents, and returns the step at the end of the chain behind the wait step, on which nothing depends |
| Fixtures.ReverseDeps | testworkflow.go:1677-1682 | lists every step's dependents once each |
| Workflows.Workflow.AlwaysAcyclic | fixtures.go:232-275 | every workflow the fixtures build is acyclic |
| Workflows.Workflow.CreateTestVM | fixtures.go:232-275 | succeeds exactly when the name is not empty, has no dash (or the VM is a beta one) and its wait step is new; the steps and dependencies then are the old ones, the wait step behind VM creation, and VM creation behind disk creation and whatever network and subnetwork steps there are; the wait step is the VM's whole chain |
| Workflows.Workflow.CreateTestVMMultipleDisks | fixtures.go:326-398 | succeeds exactly when every disk is complete, the boot disk has a name without dashes (or the VM is a beta one) and the wait step is new; the steps and dependencies then are as for a VM with one disk, networks and subnetworks included |
| Fixtures.VMIsAdded | fixtures.go:232-275 | exactly what one more VM adds to the steps and dependencies of any graph |
| Fixtures.VMNameAsStated | fixtures.go:232-234 | the name of a VM is the part before the first dot, with dashes for underscores |
| Workflows.Workflow.Reboot | fixtures.go:706-752 | succeeds exactly when the VM's wait step exists and the four names are new, which they are while no VM has a numbered name; the new graph then, the VM's chain getting exactly stop, wait-stopped, start and wait-started behind it |
| Fixtures.RebootInOrder | fixtures.go:706-752 | in a chain that ends in a reboot the VM is stopped behind what came before, started once it has stopped, and then waited for |
| Workflows.Workflow.Resume | fixtures.go:755-794 | succeeds exactly when the wait step exists and both names are new, likewise; the VM's last step then waits for the resuming, which waits for the suspension, which waits for VM creation, the chain staying as it was |
| Workflows.Workflow.ResizeDiskAndReboot | fixtures.go:797-816 | succeeds exactly when the wait step exists and the five names are new, likewise; the new graph then, the chain getting the resize step and the reboot |
| Workflows.Workflow.CreateDerivativeVM | fixtures.go:470-531 | succeeds exactly when the wait step exists, the source has a name without dashes and the five names are new; the new graph then, the chain of the source VM continuing to the derivative's wait step |
| Fixtures.DerivativeInOrder | fixtures.go:470-531 | the derivative VM is created once the disk is detached, which waits for the source VM to have stopped |
| Numbering.NamesAreNew | fixtures.go:706-711 | the names a fixture makes with the next number are new as long as no step of several words is numbered as high |
| Numbering.NextKeepsNumbering | fixtures.go:706-711 | whatever part of them is added keeps that so |
| Numbering.PlainWaitIsUnnumbered | testworkflow.go:657-684 | the wait step of a VM without a dash in its name is not numbered |
| Workflows.Workflow.CreateNetwork | fixtures.go:1074-1094 | the network step exists once, and VM creation, if it exists, waits for it |
| Workflows.Workflow.CreateSubnetwork | fixtures.go:1121-1135 | the new graph; it fails exactly without a network step, and VM creation does not come to wait for it |
| Workflows.Workflow.CreateFirewallRule | fixtures.go:1226-1247 | the firewall step exists once, waits for the networks, and VM creation waits for it, as far as those steps exist |
| Workflows.Workflow.WaitForQuota | fixtures.go:152-173 | the quota step exists once |
| Workflows.Workflow.Finalize | testworkflow.go:921-953 | in either order both creation steps come to wait for their quota steps, which inherit what they waited for; the graph stays acyclic; copy-objects waits for every step named wait- and a VM, and for nothing else; it is called only while no VM has taken a quota step's name |
| Workflows.Workflow.AddCopy | testworkflow.go:1048-1062 | copy-objects depends on exactly the steps whose name begins with wait- |
| Fixtures.TakenVMQuotaClosesCircle | testworkflow.go:921-953 | in any graph in which the VM quota step waits for VM creation, rewiring closes a cycle |
| Fixtures.TakenDisksQuotaClosesCircle | testworkflow.go:921-953 | in any graph in which the disk quota step waits for VM creation, and that for disk creation, rewiring closes a cycle |
| Fixtures.ReservedNamesAreTaken | fixtures.go:232-275 | adding a VM named like a quota step makes these dependencies, whatever the graph |
| Projects.AssignProjects | testworkflow.go:1323-1336 | one project per test, and in every prefix the use counts of any two projects differ by at most one, whatever the random choices |
| Projects.ExclusiveTokens | testworkflow.go:1309-1320 | the tokens are the projects, each once |
| Projects.StepKeepsInv | testworkflow.go:1338-1359 | every step of every worker keeps the tokens whole, the queue long enough and the project of a recreated workflow the one taken |
| Projects.EveryInterleaving | testworkflow.go:1338-1364 | in any interleaving no two workers hold the same project, and the work that is left shrinks with every step |
| Projects.TokensAreExclusive | testworkflow.go:1347-1357 | with distinct names two workers that hold one project are the same worker |
| Projects.NothingElseBlocks | testworkflow.go:1347-1357 | a token can always be given back, and no worker reads from the closed queue when it is empty |
| Projects.SomeoneCanStep | testworkflow.go:1338-1364 | while there is work some worker can move, so no wait for a token deadlocks |
| Projects.PoolIsSafe | testworkflow.go:1311-1364 | all this for the pool that is set up, after any interleaving: no project held twice, no empty read, no deadlock, no more moves than work |
| Cpusets.ParseCpusetList | utils/networkutils/networkutils.go:176-220 | accepts exactly the lists that denote a set, and returns that set |
| CpusetGrammar.ListsJoined | utils/networkutils/networkutils.go:181-183 | two lists joined by a comma are accepted exactly when both are, and stand for the union |
| CpusetGrammar.OnePart | utils/networkutils/networkutils.go:184-216 | a list without commas denotes a set exactly when it is blank and the set empty, or it is one range between blanks and the set that interval |
| CpusetGrammar.BlanksAroundAPart | utils/networkutils/networkutils.go:184-187 | blanks around a part change nothing |
| CpusetGrammar.RangeAsStated | utils/networkutils/networkutils.go:191-213 | a range is one number, or two joined by the only dash, the first not the larger |
| CpusetGrammar.NumeralAsStated | utils/networkutils/networkutils.go:197-208 | a number is an optional plus sign, any zeros and its decimal notation, and fits an int |
| Cpusets.ListString | utils/networkutils/networkutils.go:225-263 | prints the ascending list of maximal runs of the set |
| Cpusets.RunsAreUnique | utils/networkutils/networkutils.go:238-250 | that list is unique, so equal sets print identically |
| Cpusets.NormalIsCanonical | utils/networkutils/networkutils.go:153-156 | equal sets have equal bits |
| Cpusets.RoundTrip | utils/networkutils/networkutils.go:176-263 | parsing what is printed gives the set back, for every finite set of CPU numbers that fit an int |
| CpusetGrammar.PrintedIsShortest | utils/networkutils/networkutils.go:254-260 | a range is printed in the shortest of the ways it may be written |
| Cpusets.ListFormatIsCanonical | utils/networkutils/networkutils.go:176-263 | every finite set of CPU numbers that fit an int has exactly one list of maximal runs, and parsing its print gives the set back |

## Left out

- Docker, Cloud Storage, metadata and Compute calls, report and status rendering, the event log and JSON: outside effects. An execution is an arbitrary choice of one of the seven result classes; the saved state is a value.
- Result classification by log and report patterns (cmd/citrun/executor.go): pattern matching over text; that only the seven classes come out is a hypothesis.
- Floating point: limit times safety factor is a real product, rounded towards zero.
- Attempt details and wall-clock seconds: recorded, never read by a decision.
- Counter and integer widths: integers are unbounded except in durations, which wrap at 64 bits, and in parsed CPU numbers. Times are integers that do not go backwards; a missing time counts as before every other.
- Cooldown key strings: keys are values of a datatype, so a name with a separator in it cannot make two keys collide.
- A `pickZone` call for a job without a record, which only unit tests make; records are filed under their job's id.
- Signals and channels of `Run`: they appear as events in an arbitrary order. A goroutine sends exactly one completion.
- `excludedZones`, `eta`, `activeCooldowns`, `statusCounts`: reports whose properties would repeat those of the functions modelled.
- `Recovery.StepTo`: a resume is one step; the containers that end while it waits for others end before it, and it uses one clock value.
- `Scheduling.Scheduler.Run`: the script says what the loop meets between two passes; two events at the same instant come in some order.
- Instance, disk, network-interface and metadata fields in the fixtures: they add no step and no dependency. A quota step exists without its list of quotas.
- `Workflows.Workflow.Finalize`: the per-VM machine type, zone and disk settings, which change no step.
- Glob matching: `Plan.glob` is an arbitrary predicate over pattern and name; a malformed pattern matches nothing.
- `ParseCpusetMask`, NIC expansion and the other functions of the networking utilities: pure text functions without an invariant.
- `Cpusets.ParseCpusetList`: memory is unlimited, so a range that ends at the largest int is a set here, where the Go loop would not end. Strings are sequences of characters, not bytes.
- `test_suites`, the in-guest wrapper, generated code and the cleaner: commands and deletions in other systems.
