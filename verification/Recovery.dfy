// Crashes and resumes: what holds over every sequence of runs, crashes and
// recoveries of one saved run.
module Recovery {
  import opened Names
  import opened Jobs
  import opened Budgets
  import opened Spec
  import opened Accounting
  import opened Invariants
  import opened Completions
  import opened Admission
  import opened Runs
  import opened Liveness
  import opened ResumeSpec
  import opened Migration
  import opened Refreshing
  import Steps
  import Sweeps
  import Termination

  // Either a scheduler runs, or there is only the saved state and whatever
  // containers outlived the scheduler.
  datatype Cluster =
    | Up(w: World)
    | Down(disk: RunData, live: multiset<string>, now: int)
  {
    function Disk(): RunData {
      if Up? then w.s.saved else disk
    }

    function Containers(): multiset<string> {
      if Up? then w.s.live else live
    }
  }

  datatype Step =
    | Act(e: Event)                 // an event of the running scheduler
    | Crash
    | Finish                        // Run returns and saves
    | Exit(id: string)              // a container ends with no scheduler up
    | Wait(to: int)
    | Resume(cooldowns: map<CooldownKey, int>, answers: ResumeSpec.Containers, onlyFailed: bool)

  ghost predicate CInv(cfg: Config, c: Cluster) {
    match c
    case Up(w) => Inv(cfg, w.s)
    case Down(disk, live, _) => ValidConfig(cfg) && ValidRun(cfg, disk) && LiveOK(disk.jobs, live)
  }

  ghost predicate CanStep(cfg: Config, c: Cluster, a: Step)
    requires CInv(cfg, c)
  {
    match a
    case Act(e) => c.Up? && Possible(c.w, e)
    case Crash => c.Up?
    case Finish => c.Up? && Returns(c.w)
    case Exit(id) => c.Down? && c.live[id] > 0
    case Wait(to) => c.Down? && c.now <= to
    case Resume(m, answers, _) =>
      c.Down? && IsMigration(c.disk, c.now, m) && forall id :: c.live[id] > 0 ==> id in answers.exist
  }

  // The run a resume starts from its own recovered state.
  function Resumed(
      cfg: Config, disk: RunData, now: int, m: map<CooldownKey, int>, answers: ResumeSpec.Containers,
      onlyFailed: bool): RunData
    requires forall id :: id in disk.order ==> id in disk.jobs
  {
    ResumeFrom(cfg, disk.(cooldowns := m), now, disk.order, answers, onlyFailed)
  }

  ghost function StepTo(cfg: Config, c: Cluster, a: Step): (c': Cluster)
    requires CInv(cfg, c) && CanStep(cfg, c, a)
    ensures CInv(cfg, c')
  {
    hide Inv, ValidRun;
    match a
    case Act(e) => Up(Next(cfg, c.w, e))
    case Crash =>
      DiskIsRecoverable(cfg, c.w.s);
      Down(c.w.s.saved, c.w.s.live, c.w.now)
    case Finish =>
      FinishedIsRecoverable(cfg, c.w.s);
      Down(c.w.s.run, c.w.s.live, c.w.now)
    case Exit(id) => c.(live := c.live - multiset{id})
    case Wait(to) => c.(now := to)
    case Resume(m, answers, onlyFailed) =>
      ResumeStarts(cfg, c.disk, c.live, c.now, m, answers, onlyFailed);
      Up(World(NewSched(Resumed(cfg, c.disk, c.now, m, answers, onlyFailed),
                        c.live - multiset(AttachIds(c.disk, answers))), c.now, true, false))
  }

  lemma DiskIsRecoverable(cfg: Config, s: Sched)
    requires Inv(cfg, s)
    ensures ValidConfig(cfg) && ValidRun(cfg, s.saved) && LiveOK(s.saved.jobs, s.live)
    ensures LiveOK(s.run.jobs, s.live)
  {
    hide ValidRun, Accounts, Flown, WithinBudgets;
  }

  lemma FinishedIsRecoverable(cfg: Config, s: Sched)
    requires Inv(cfg, s)
    ensures ValidConfig(cfg) && ValidRun(cfg, s.run) && LiveOK(s.run.jobs, s.live)
  {
    hide ValidRun, Accounts, Flown, WithinBudgets, LiveOK, SavedAgrees;
  }

  // Every container that outlived a crash is awaited by the resume, so the
  // new scheduler starts with none.
  lemma ResumeStarts(
      cfg: Config, disk: RunData, live: multiset<string>, now: int, m: map<CooldownKey, int>,
      answers: ResumeSpec.Containers, onlyFailed: bool)
    requires ValidConfig(cfg) && ValidRun(cfg, disk) && LiveOK(disk.jobs, live) && IsMigration(disk, now, m)
    requires forall id :: live[id] > 0 ==> id in answers.exist
    ensures forall id :: id in disk.order <==> id in disk.jobs
    ensures live - multiset(AttachIds(disk, answers)) == multiset{}
    ensures Inv(cfg, NewSched(Resumed(cfg, disk, now, m, answers, onlyFailed), multiset{}))
  {
    assert Distinct(disk.order) && forall id :: id in disk.order <==> id in disk.jobs;
    hide ValidRun, ResumeFrom, IsMigration, Inv;
    forall id ensures live[id] <= multiset(AttachIds(disk, answers))[id] {}
    MigrationKeepsRun(cfg, disk, now, m);
    ResumeKeepsRun(cfg, disk.(cooldowns := m), now, disk.order, answers, onlyFailed);
    NewSchedInv(cfg, Resumed(cfg, disk, now, m, answers, onlyFailed), multiset{});
  }

  ghost predicate History(cfg: Config, c: Cluster, steps: seq<Step>)
    requires CInv(cfg, c)
    decreases |steps|
  {
    steps == [] || (CanStep(cfg, c, steps[0]) && History(cfg, StepTo(cfg, c, steps[0]), steps[1..]))
  }

  ghost function AfterAll(cfg: Config, c: Cluster, steps: seq<Step>): (c': Cluster)
    requires CInv(cfg, c) && History(cfg, c, steps)
    ensures CInv(cfg, c')
    decreases |steps|
  {
    if steps == [] then c else AfterAll(cfg, StepTo(cfg, c, steps[0]), steps[1..])
  }

  // Over any history every container belongs to a job recorded on disk as
  // running, and no job has two.
  lemma ContainersAreRecorded(cfg: Config, c: Cluster, steps: seq<Step>, id: string)
    requires CInv(cfg, c) && History(cfg, c, steps)
    ensures var c' := AfterAll(cfg, c, steps);
      && c'.Containers()[id] <= 1
      && (c'.Containers()[id] == 1 ==> id in c'.Disk().jobs && c'.Disk().jobs[id].status.Running?)
  {
    hide History, AfterAll, ValidRun, Inv;
    var c' := AfterAll(cfg, c, steps);
    if c'.Up? { DiskIsRecoverable(cfg, c'.w.s); }
  }

  // ------------------------------------------------------- passed is for good

  ghost predicate PassedWith(run: RunData, id: string, attempts: seq<Attempt>) {
    id in run.jobs && run.jobs[id].status.Passed? && run.jobs[id].attempts == attempts
  }

  lemma {:induction false} AdmitKeepsPassed(
      cfg: Config, s: Sched, now: int, ids: seq<string>, id: string, attempts: seq<Attempt>)
    requires Inv(cfg, s) && forall i :: i in ids ==> i in s.run.jobs
    requires PassedWith(s.run, id, attempts)
    ensures PassedWith(AdmitFrom(cfg, s, now, ids).run, id, attempts)
    decreases |ids|
  {
    hide AdmitOne, Inv, AdmitFrom;
    Steps.AdmitFromStep(cfg, s, now, ids);
    if ids != [] && !(s.run.jobs[ids[0]].status == Queued && s.running >= cfg.containerCap) {
      var t := AdmitOne(cfg, s, now, ids[0]);
      AdmitOneKeepsPassed(cfg, s, now, ids[0], id);
      Steps.AdmitOneKeepsInv(cfg, s, now, ids[0]);
      AdmitKeepsPassed(cfg, t, now, ids[1..], id, attempts);
    }
  }

  lemma AdmitOneKeepsPassed(cfg: Config, s: Sched, now: int, turn: string, id: string)
    requires Inv(cfg, s) && turn in s.run.jobs && id in s.run.jobs && !s.run.jobs[id].status.Queued?
    ensures AdmitOne(cfg, s, now, turn).run.jobs[id] == s.run.jobs[id]
  {
    if turn == id {
      hide PickZone, Launch, Blocked, Inv;
    } else {
      hide AdmitOne, ValidRun, Accounts, Counter, WithinBudgets, Flown, LiveOK, SavedAgrees;
      AdmitOneChanges(cfg, s, now, turn);
    }
  }

  lemma NextKeepsPassed(cfg: Config, w: World, e: Event, id: string, attempts: seq<Attempt>)
    requires Inv(cfg, w.s) && Possible(w, e) && PassedWith(w.s.run, id, attempts)
    ensures PassedWith(Next(cfg, w, e).s.run, id, attempts)
  {
    hide AdmitFrom, Complete, Inv;
    match e
    case Admit(paused) =>
      if !(paused || !w.admitting || w.killed) {
        Steps.OrderListsJobs(cfg, w.s);
        AdmitKeepsPassed(cfg, w.s, w.now, w.s.run.order, id, attempts);
      }
    case Completion(f, end, cls) =>
      CompleteKeepsInv(cfg, w.s, w.now, f, end, cls, w.killed);
      Termination.RunningRecord(cfg, w.s, f);
      InFlightHasAttempts(w.s.run.jobs, f);
      Sweeps.CompleteOthers(cfg, w.s, w.now, f, end, cls, w.killed, id);
    case _ =>
  }

  lemma SavedPassed(cfg: Config, s: Sched, id: string, attempts: seq<Attempt>)
    requires Inv(cfg, s)
    ensures PassedWith(s.saved, id, attempts) <==> PassedWith(s.run, id, attempts)
  {
    hide ValidRun, Accounts, Flown, WithinBudgets, LiveOK;
  }

  lemma {:induction false} ResumeKeepsPassed(
      cfg: Config, run: RunData, now: int, ids: seq<string>, c: ResumeSpec.Containers, onlyFailed: bool,
      id: string, attempts: seq<Attempt>)
    requires ValidRun(cfg, run) && forall i :: i in ids ==> i in run.jobs
    requires PassedWith(run, id, attempts)
    ensures PassedWith(ResumeFrom(cfg, run, now, ids, c, onlyFailed), id, attempts)
    decreases |ids|
  {
    hide ResumeOne, ValidRun;
    if ids != [] {
      ResumeOneKeepsRun(cfg, run, now, ids[0], c, onlyFailed);
      ResumeOnePassed(cfg, run, now, ids[0], c, onlyFailed, id);
      ResumeKeepsPassed(cfg, ResumeOne(cfg, run, now, ids[0], c, onlyFailed), now, ids[1..], c, onlyFailed, id,
        attempts);
    }
  }

  lemma ResumeOnePassed(
      cfg: Config, run: RunData, now: int, turn: string, c: ResumeSpec.Containers, onlyFailed: bool,
      id: string)
    requires ValidRun(cfg, run) && turn in run.jobs && id in run.jobs && run.jobs[id].status.Passed?
    ensures ResumeOne(cfg, run, now, turn, c, onlyFailed).jobs[id] == run.jobs[id]
  {
    if turn == id {
      hide ValidRun, Attach;
    } else {
      hide ResumeOne, ValidRun;
      ResumeOneOnJob(cfg, run, now, turn, c, onlyFailed, id);
    }
  }

  lemma StepKeepsPassed(cfg: Config, c: Cluster, a: Step, id: string, attempts: seq<Attempt>)
    requires CInv(cfg, c) && CanStep(cfg, c, a) && PassedWith(c.Disk(), id, attempts)
    ensures PassedWith(StepTo(cfg, c, a).Disk(), id, attempts)
  {
    hide Inv, ValidRun, Next, Possible, ResumeFrom, IsMigration, PassedWith, Returns;
    if c.Up? { SavedPassed(cfg, c.w.s, id, attempts); }
    match a
    case Act(e) =>
      NextKeepsPassed(cfg, c.w, e, id, attempts);
      SavedPassed(cfg, Next(cfg, c.w, e).s, id, attempts);
    case Resume(m, answers, onlyFailed) =>
      ResumeStarts(cfg, c.disk, c.live, c.now, m, answers, onlyFailed);
      MigrationKeepsRun(cfg, c.disk, c.now, m);
      assert PassedWith(c.disk.(cooldowns := m), id, attempts) by { PassedFrame(c.disk, m, id, attempts); }
      ResumeKeepsPassed(cfg, c.disk.(cooldowns := m), c.now, c.disk.order, answers, onlyFailed, id, attempts);
    case _ =>
  }

  lemma PassedFrame(run: RunData, m: map<CooldownKey, int>, id: string, attempts: seq<Attempt>)
    ensures PassedWith(run.(cooldowns := m), id, attempts) == PassedWith(run, id, attempts)
  {
  }

  // A job recorded as passed is never launched again, whatever runs, crashes
  // and resumes follow.
  lemma {:induction false} PassedIsNeverLaunchedAgain(
      cfg: Config, c: Cluster, steps: seq<Step>, id: string, attempts: seq<Attempt>)
    requires CInv(cfg, c) && History(cfg, c, steps) && PassedWith(c.Disk(), id, attempts)
    ensures PassedWith(AfterAll(cfg, c, steps).Disk(), id, attempts)
    decreases |steps|
  {
    hide CInv, CanStep, StepTo, PassedWith;
    if steps != [] {
      StepKeepsPassed(cfg, c, steps[0], id, attempts);
      PassedIsNeverLaunchedAgain(cfg, StepTo(cfg, c, steps[0]), steps[1..], id, attempts);
    }
  }

  // After a refresh the resume that follows starts from a valid scheduler
  // under the new configuration, so it makes progress like any other.
  lemma RefreshedRunResumes(
      before: Config, cfg: Config, run: RunData, plan: seq<Job>, now: int, m: map<CooldownKey, int>,
      answers: ResumeSpec.Containers, onlyFailed: bool)
    requires ValidConfig(cfg) && ValidRun(before, run) && Matched(run, ById(plan))
    requires StaysPlaceable(cfg, run, ById(plan))
    requires (forall j :: j in plan ==> ValidJob(j)) && IsMigration(RefreshRun(run, ById(plan)), now, m)
    ensures var refreshed := RefreshRun(run, ById(plan));
      && (forall id :: id in refreshed.order ==> id in refreshed.jobs)
      && Inv(cfg, NewSched(Resumed(cfg, refreshed, now, m, answers, onlyFailed), multiset{}))
  {
    hide ValidRun, Matched, StaysPlaceable, RefreshRun, ById, Inv, ValidConfig, Resumed, IsMigration;
    RefreshedRunIsValid(before, cfg, run, plan);
    NoContainers(RefreshRun(run, ById(plan)));
    ResumeStarts(cfg, RefreshRun(run, ById(plan)), multiset{}, now, m, answers, onlyFailed);
  }

  lemma NoContainers(run: RunData)
    ensures LiveOK(run.jobs, multiset{})
  {
  }
}
