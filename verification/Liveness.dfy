// The event loop comes to an end: a finite amount of work, and no waiting for
// nothing.
module Liveness {
  import opened Names
  import opened Jobs
  import opened Budgets
  import opened Spec
  import opened Accounting
  import opened Invariants
  import Steps
  import opened Completions
  import opened Admission
  import opened Termination
  import opened Runs

  // The condition on which Run returns.
  ghost predicate Returns(w: World) {
    w.s.running == 0 &&
    (!w.admitting || w.killed || forall id :: id in w.s.run.jobs ==> !w.s.run.jobs[id].status.Queued?)
  }

  // When Run returns nothing is running, and unless it was interrupted every
  // job is settled.
  lemma ReturnedRunIsSettled(cfg: Config, w: World, id: string)
    requires Inv(cfg, w.s) && Returns(w) && id in w.s.run.jobs
    ensures !w.s.run.jobs[id].status.Running?
    ensures w.admitting && !w.killed ==>
      w.s.run.jobs[id].status in {Passed, FailedReal, FailedInfra, Quarantined}
  {
    IdleIsIdle(cfg, w.s);
  }

  // ------------------------------------------------------ a decreasing rank

  function SumLeft(cfg: Config, run: RunData, ids: seq<string>): int
    requires ValidConfig(cfg)
  {
    if ids == [] then 0
    else SumLeft(cfg, run, ids[1..]) + (if ids[0] in run.jobs then LaunchesLeft(cfg, run, ids[0], false) else 0)
  }

  // Launches still to come plus containers out.
  function Work(cfg: Config, s: Sched): int
    requires ValidConfig(cfg)
  {
    SumLeft(cfg, s.run, s.run.order) + s.running
  }

  lemma {:induction false} SumLeftUpdate(cfg: Config, run: RunData, run': RunData, ids: seq<string>, id: string)
    requires ValidConfig(cfg) && Distinct(ids) && id in run.jobs && id in run'.jobs
    requires run'.jobs.Keys == run.jobs.Keys
    requires forall i :: i in run.jobs && i != id ==>
      LaunchesLeft(cfg, run', i, false) == LaunchesLeft(cfg, run, i, false)
    ensures SumLeft(cfg, run', ids) == SumLeft(cfg, run, ids)
      + (if id in ids then LaunchesLeft(cfg, run', id, false) - LaunchesLeft(cfg, run, id, false) else 0)
  {
    hide LaunchesLeft, ValidConfig;
    if ids != [] {
      SumLeftUpdate(cfg, run, run', ids[1..], id);
      assert ids == [ids[0]] + ids[1..];
    }
  }

  lemma {:induction false} SumLeftNonNegative(cfg: Config, s: Sched, ids: seq<string>)
    requires Inv(cfg, s)
    ensures SumLeft(cfg, s.run, ids) >= 0
  {
    assert ValidConfig(cfg);
    hide Inv, LaunchesLeft, ValidConfig;
    if ids != [] {
      SumLeftNonNegative(cfg, s, ids[1..]);
      if ids[0] in s.run.jobs { LaunchesLeftNonNegative(cfg, s, ids[0], false); }
    }
  }

  // Only this job's record and sweep cooldown changed.
  ghost predicate OnlyJob(s: Sched, t: Sched, id: string) {
    && t.run.order == s.run.order && t.run.jobs.Keys == s.run.jobs.Keys
    && id in s.run.jobs && forall i :: i in s.run.jobs && i != id ==> SameJob(s, t, i)
  }

  lemma WorkUpdate(cfg: Config, s: Sched, t: Sched, id: string)
    requires Inv(cfg, s) && OnlyJob(s, t, id) && id in t.run.jobs
    ensures Work(cfg, t) == Work(cfg, s) + t.running - s.running
      + LaunchesLeft(cfg, t.run, id, false) - LaunchesLeft(cfg, s.run, id, false)
  {
    Steps.OrderListsJobs(cfg, s);
    OrderDistinct(cfg, s);
    assert ValidConfig(cfg);
    hide Inv, LaunchesLeft, SameJob, ValidConfig;
    forall i | i in s.run.jobs && i != id
      ensures LaunchesLeft(cfg, t.run, i, false) == LaunchesLeft(cfg, s.run, i, false)
    {
      SameJobKeepsLaunches(cfg, s, t, i, false);
    }
    SumLeftUpdate(cfg, s.run, t.run, s.run.order, id);
  }

  lemma OrderDistinct(cfg: Config, s: Sched)
    requires Inv(cfg, s)
    ensures Distinct(s.run.order)
  {
    hide SweepOK, ValidRecord, Accounts, WithinBudgets, Flown, LiveOK, SavedAgrees;
  }

  // Admission trades launches for containers one for one.
  lemma AdmitOneKeepsWork(cfg: Config, s: Sched, now: int, id: string)
    requires Inv(cfg, s) && id in s.run.jobs
    ensures Work(cfg, AdmitOne(cfg, s, now, id)) == Work(cfg, s)
  {
    assert ValidConfig(cfg);
    hide AdmitOne, LaunchesLeft, ValidRun, Accounts, Counter, WithinBudgets, Flown, LiveOK, SavedAgrees;
    hide ValidConfig, Work;
    var t := AdmitOne(cfg, s, now, id);
    AdmitOneOnlyJob(cfg, s, now, id);
    hide OnlyJob, Inv;
    WorkUpdate(cfg, s, t, id);
    AdmitOneUsesLaunch(cfg, s, now, id);
    AdmitOneTakesSlots(cfg, s, now, id);
  }

  lemma AdmitOneOnlyJob(cfg: Config, s: Sched, now: int, id: string)
    requires Inv(cfg, s) && id in s.run.jobs
    ensures OnlyJob(s, AdmitOne(cfg, s, now, id), id)
  {
    hide AdmitOne, ValidRun, Accounts, Counter, WithinBudgets, Flown, LiveOK, SavedAgrees;
    AdmitOneChanges(cfg, s, now, id);
  }

  lemma AdmitOneTakesSlots(cfg: Config, s: Sched, now: int, id: string)
    requires id in s.run.jobs
    ensures var t := AdmitOne(cfg, s, now, id);
      id in t.run.jobs && t.running - s.running == |t.run.jobs[id].attempts| - |s.run.jobs[id].attempts|
  {
    hide PickZone, Blocked, AddCPU, BudgetKeys;
    var avoid := AvoidZone(s.run.jobs[id].attempts);
    Picking.PickZoneFrame(cfg, s, now, id, avoid);
    var (zone, t) := PickZone(cfg, s, now, id, avoid);
    if zone != "" { Steps.LaunchEffect(cfg, t, now, id, zone); }
  }

  lemma {:induction false} AdmitKeepsWork(cfg: Config, s: Sched, now: int, ids: seq<string>)
    requires Inv(cfg, s) && forall i :: i in ids ==> i in s.run.jobs
    ensures Work(cfg, AdmitFrom(cfg, s, now, ids)) == Work(cfg, s)
    decreases |ids|
  {
    assert ValidConfig(cfg);
    hide AdmitOne, Inv, Work, ValidConfig, AdmitFrom;
    Steps.AdmitFromStep(cfg, s, now, ids);
    if ids != [] && !(s.run.jobs[ids[0]].status == Queued && s.running >= cfg.containerCap) {
      AdmitOneKeepsWork(cfg, s, now, ids[0]);
      Steps.AdmitOneKeepsInv(cfg, s, now, ids[0]);
      var t := AdmitOne(cfg, s, now, ids[0]);
      AdmitKeepsWork(cfg, t, now, ids[1..]);
    }
  }

  lemma CompleteFrame(cfg: Config, s: Sched, now: int, f: Flight, end: int, cls: Class, killed: bool)
    requires f.id in s.run.jobs && |s.run.jobs[f.id].attempts| > 0
    ensures var t := Complete(cfg, s, now, f, end, cls, killed);
      OnlyJob(s, t, f.id) && f.id in t.run.jobs && t.running == s.running - 1
  {
    hide Complete, RecordStockout, AddCPU, BudgetKeys, CloseAttempt;
    var t := Complete(cfg, s, now, f, end, cls, killed);
    CompleteEffect(cfg, s, now, f, end, cls, killed);
    assert Counter(t, Slots) == s.running - 1;
  }

  // Every completion finishes some work for good.
  lemma CompleteDoesWork(cfg: Config, s: Sched, now: int, f: Flight, end: int, cls: Class)
    requires Inv(cfg, s) && InFlight(s.run.jobs, f)
    ensures Work(cfg, Complete(cfg, s, now, f, end, cls, false)) <= Work(cfg, s) - 1
  {
    InFlightHasAttempts(s.run.jobs, f);
    assert ValidConfig(cfg);
    hide Complete, LaunchesLeft, Inv, ValidConfig, Work, InFlight, OnlyJob;
    CompleteFrame(cfg, s, now, f, end, cls, false);
    CompleteUsesLaunch(cfg, s, now, f, end, cls, false);
    WorkUpdate(cfg, s, Complete(cfg, s, now, f, end, cls, false), f.id);
  }

  // ------------------------------------------------------- fair executions

  // No signal: neither context is cancelled during these events.
  ghost predicate Undisturbed(es: seq<Event>) {
    forall e :: e in es ==> !e.StopAdmission? && !e.KillJobs?
  }

  ghost predicate HasCompletion(es: seq<Event>) {
    exists e :: e in es && e.Completion?
  }

  // Work never grows, and each completion makes it shrink.
  lemma NextWork(cfg: Config, w: World, e: Event)
    requires Inv(cfg, w.s) && Possible(w, e) && !w.killed && !e.KillJobs?
    ensures var w' := Next(cfg, w, e);
      && Work(cfg, w'.s) <= Work(cfg, w.s) - (if e.Completion? then 1 else 0)
      && !w'.killed && (!e.StopAdmission? ==> w'.admitting == w.admitting)
  {
    assert ValidConfig(cfg);
    hide AdmitFrom, Complete, Inv, ValidConfig;
    match e
    case Admit(paused) =>
      if !paused && w.admitting {
        Steps.OrderListsJobs(cfg, w.s);
        hide Work;
        AdmitKeepsWork(cfg, w.s, w.now, w.s.run.order);
      }
    case Completion(f, end, cls) =>
      CompleteKeepsInv(cfg, w.s, w.now, f, end, cls, false);
      hide Work;
      CompleteDoesWork(cfg, w.s, w.now, f, end, cls);
    case _ =>
  }

  lemma {:induction false} TraceWork(cfg: Config, w: World, es: seq<Event>)
    requires Inv(cfg, w.s) && Trace(cfg, w, es) && !w.killed && Undisturbed(es)
    ensures var w' := After(cfg, w, es);
      && Work(cfg, w'.s) <= Work(cfg, w.s)
      && (HasCompletion(es) ==> Work(cfg, w'.s) <= Work(cfg, w.s) - 1)
      && !w'.killed && w'.admitting == w.admitting
    decreases |es|
  {
    assert ValidConfig(cfg);
    hide Next, Possible, Inv, ValidConfig, Work;
    if es != [] {
      assert es[0] in es;
      assert Undisturbed(es[1..]);
      NextWork(cfg, w, es[0]);
      var w1 := Next(cfg, w, es[0]);
      assert After(cfg, w, es) == After(cfg, w1, es[1..]);
      HasCompletionInTail(es);
      hide After, Undisturbed, HasCompletion;
      TraceWork(cfg, w1, es[1..]);
    }
  }

  lemma HasCompletionInTail(es: seq<Event>)
    requires es != []
    ensures HasCompletion(es) ==> es[0].Completion? || HasCompletion(es[1..])
  {
    assert es == [es[0]] + es[1..];
  }

  // One phase of the loop: an admission pass that does not end the run, then
  // any undisturbed events among which some container completes or, when none
  // is out, after which every timer has expired.
  ghost predicate Phase(cfg: Config, w: World, es: seq<Event>)
    requires Inv(cfg, w.s)
  {
    && w.admitting && !w.killed && !Returns(Next(cfg, w, Admit(false)))
    && Trace(cfg, Next(cfg, w, Admit(false)), es) && Undisturbed(es)
    && (HasCompletion(es)
        || (Next(cfg, w, Admit(false)).s.running == 0
            && var w' := After(cfg, Next(cfg, w, Admit(false)), es); TimersExpired(w'.s, w'.now)))
  }

  ghost function AfterPhase(cfg: Config, w: World, es: seq<Event>): (w': World)
    requires Inv(cfg, w.s) && Phase(cfg, w, es)
    ensures Inv(cfg, w'.s)
  {
    After(cfg, Next(cfg, w, Admit(false)), es)
  }

  ghost function Rank(cfg: Config, w: World): int
    requires ValidConfig(cfg)
  {
    2 * Work(cfg, w.s) + (if TimersExpired(w.s, w.now) then 0 else 1)
  }

  // Every job alone fits the network budgets, and a container may run.
  ghost predicate Runnable(cfg: Config, s: Sched) {
    cfg.containerCap >= 1 && forall id :: id in s.run.jobs ==> FitsNetworks(cfg, s.run.jobs[id].job)
  }

  lemma {:induction false} TraceKeepsJobs(cfg: Config, w: World, es: seq<Event>)
    requires Inv(cfg, w.s) && Trace(cfg, w, es) && Runnable(cfg, w.s)
    ensures Runnable(cfg, After(cfg, w, es).s)
    decreases |es|
  {
    hide Next, Possible, Inv;
    if es != [] {
      NextKeepsJobs(cfg, w, es[0]);
      TraceKeepsJobs(cfg, Next(cfg, w, es[0]), es[1..]);
    }
  }

  lemma NextKeepsJobs(cfg: Config, w: World, e: Event)
    requires Inv(cfg, w.s) && Possible(w, e) && Runnable(cfg, w.s)
    ensures Runnable(cfg, Next(cfg, w, e).s)
  {
    hide Next, Inv;
    NextKeepsKeys(cfg, w, e);
    forall id | id in Next(cfg, w, e).s.run.jobs ensures FitsNetworks(cfg, Next(cfg, w, e).s.run.jobs[id].job) {
      NextUsesLaunches(cfg, w, e, id);
    }
  }

  lemma NextKeepsKeys(cfg: Config, w: World, e: Event)
    requires Inv(cfg, w.s) && Possible(w, e)
    ensures Next(cfg, w, e).s.run.jobs.Keys == w.s.run.jobs.Keys
  {
    hide AdmitFrom, Complete, Inv;
    match e
    case Admit(paused) => Steps.OrderListsJobs(cfg, w.s);
    case Completion(f, end, cls) =>
      CompleteKeepsInv(cfg, w.s, w.now, f, end, cls, w.killed);
      InFlightHasAttempts(w.s.run.jobs, f);
      CompleteFrame(cfg, w.s, w.now, f, end, cls, w.killed);
    case _ =>
  }

  lemma {:induction false} AdmitGrows(cfg: Config, s: Sched, now: int, ids: seq<string>)
    requires Inv(cfg, s) && forall i :: i in ids ==> i in s.run.jobs
    ensures AdmitFrom(cfg, s, now, ids).running >= s.running
    decreases |ids|
  {
    hide AdmitOne, Inv, AdmitFrom;
    Steps.AdmitFromStep(cfg, s, now, ids);
    if ids != [] && !(s.run.jobs[ids[0]].status == Queued && s.running >= cfg.containerCap) {
      AdmitOneGrows(cfg, s, now, ids[0]);
      Steps.AdmitOneKeepsInv(cfg, s, now, ids[0]);
      var t := AdmitOne(cfg, s, now, ids[0]);
      AdmitGrows(cfg, t, now, ids[1..]);
    }
  }

  lemma AdmitOneGrows(cfg: Config, s: Sched, now: int, id: string)
    requires Inv(cfg, s) && id in s.run.jobs
    ensures AdmitOne(cfg, s, now, id).running >= s.running
  {
    hide AdmitOne, ValidRun, Accounts, WithinBudgets, Flown, LiveOK, SavedAgrees;
    AdmitOneChanges(cfg, s, now, id);
    assert Counter(AdmitOne(cfg, s, now, id), Slots) >= Counter(s, Slots);
  }

  // An admission pass that launches nothing, with the run unfinished, means
  // that some timer was still running.
  lemma IdlePassHadTimers(cfg: Config, w: World)
    requires Inv(cfg, w.s) && Runnable(cfg, w.s) && w.admitting && !w.killed
    requires var w1 := Next(cfg, w, Admit(false)); !Returns(w1) && w1.s.running == 0
    ensures !TimersExpired(w.s, w.now)
  {
    hide AdmitFrom, Inv, TimersExpired, FitsNetworks;
    Steps.OrderListsJobs(cfg, w.s);
    var w1 := Next(cfg, w, Admit(false));
    AdmitPasses(cfg, w.s, w.now, w.s.run.order);
    var id :| id in w1.s.run.jobs && w1.s.run.jobs[id].status.Queued?;
    AdmitGrows(cfg, w.s, w.now, w.s.run.order);
    IdleIsIdle(cfg, w.s);
    if TimersExpired(w.s, w.now) {
      AdmitMakesProgress(cfg, w.s, w.now, id);
    }
  }

  // Each phase uses up rank.
  lemma PhaseDecreasesRank(cfg: Config, w: World, es: seq<Event>)
    requires Inv(cfg, w.s) && Runnable(cfg, w.s) && Phase(cfg, w, es)
    ensures Runnable(cfg, AfterPhase(cfg, w, es).s)
    ensures Rank(cfg, AfterPhase(cfg, w, es)) <= Rank(cfg, w) - 1
  {
    assert ValidConfig(cfg);
    hide Next, Inv, Work, TimersExpired, ValidConfig, Returns, Runnable, Trace, After;
    var w1 := Next(cfg, w, Admit(false));
    assert Possible(w, Admit(false));
    NextWork(cfg, w, Admit(false));
    NextKeepsJobs(cfg, w, Admit(false));
    TraceWork(cfg, w1, es);
    TraceKeepsJobs(cfg, w1, es);
    if !HasCompletion(es) {
      IdlePassHadTimers(cfg, w);
    }
  }

  ghost predicate Phases(cfg: Config, w: World, phases: seq<seq<Event>>)
    requires Inv(cfg, w.s)
    decreases |phases|
  {
    phases == [] || (Phase(cfg, w, phases[0]) && Phases(cfg, AfterPhase(cfg, w, phases[0]), phases[1..]))
  }

  // Every fair execution returns: from any state of a run it goes through at
  // most Rank phases before an admission pass finds nothing left to do.
  lemma {:induction false} FairRunsReturn(cfg: Config, w: World, phases: seq<seq<Event>>)
    requires Inv(cfg, w.s) && Runnable(cfg, w.s) && Phases(cfg, w, phases)
    ensures |phases| <= Rank(cfg, w)
    decreases |phases|
  {
    assert ValidConfig(cfg);
    hide Inv, Rank, Phase, AfterPhase, Runnable, ValidConfig;
    if phases == [] {
      RankNonNegative(cfg, w);
    } else {
      PhaseDecreasesRank(cfg, w, phases[0]);
      FairRunsReturn(cfg, AfterPhase(cfg, w, phases[0]), phases[1..]);
    }
  }

  lemma RankNonNegative(cfg: Config, w: World)
    requires Inv(cfg, w.s)
    ensures Rank(cfg, w) >= 0
  {
    SumLeftNonNegative(cfg, w.s, w.s.run.order);
    hide ValidRun, Accounts, WithinBudgets, Flown, LiveOK, SavedAgrees, SumLeft;
    Steps.CountersNonNegative(cfg, w.s, Slots);
  }
}
