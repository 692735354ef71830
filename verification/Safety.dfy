// What holds in every state a planned run goes through.
module Safety {
  import opened Names
  import opened Jobs
  import opened Budgets
  import opened Spec
  import opened Picking
  import opened Accounting
  import opened Invariants
  import opened State
  import opened Placement
  import opened Runs
  import opened Recovery
  import Steps

  // A run as it starts: planned, validated, nothing running.
  function Start(jobs: seq<Job>, now: int): World {
    World(NewSched(NewRun(jobs), multiset{}), now, true, false)
  }

  // Every charge stays within the floor of limit times safety factor, networks,
  // subnetworks and running jobs within budget and cap, and a shape whose jobs
  // share one positive MaxParallel within it.
  ghost predicate BudgetsHold(cfg: Config, s: Sched) {
    && (forall r, k :: 0 <= LimitOf(s.usedCPU, r, k) <= Usable(cfg, r, k) <= LimitOf(cfg.regions, r, k))
    && 0 <= s.usedNets <= cfg.networks && 0 <= s.usedSubnets <= cfg.subnetworks
    && 0 <= s.running <= cfg.containerCap
    && (forall shape, cap :: SharedCap(s.run.jobs, shape, cap) ==> 0 <= GetOr(s.perShape, shape, 0) <= cap)
  }

  // Every counter equals the sum over the records whose last attempt is open,
  // and those are the running ones.
  ghost predicate CountersHold(cfg: Config, s: Sched) {
    && (forall m :: Counter(s, m) == Total(cfg, m, s.run.order, s.run.jobs))
    && (forall id :: id in s.run.jobs ==> (s.run.jobs[id].status.Running? <==> IsOpen(s.run.jobs[id])))
  }

  lemma InvKeepsBudgets(cfg: Config, s: Sched)
    requires Inv(cfg, s)
    ensures BudgetsHold(cfg, s)
  {
    hide ValidRun, Accounts, Flown, LiveOK, SavedAgrees, Usable, SharedCap;
    forall r, k ensures 0 <= LimitOf(s.usedCPU, r, k) <= Usable(cfg, r, k) <= LimitOf(cfg.regions, r, k) {
      UsableWithinLimit(cfg, r, k);
      Steps.CountersNonNegative(cfg, s, CPU(r, k));
    }
    Steps.CountersNonNegative(cfg, s, Networks);
    Steps.CountersNonNegative(cfg, s, Subnets);
    Steps.CountersNonNegative(cfg, s, Slots);
    forall shape, cap | SharedCap(s.run.jobs, shape, cap) ensures 0 <= GetOr(s.perShape, shape, 0) <= cap {
      Steps.CountersNonNegative(cfg, s, ShapeSlots(shape));
    }
  }

  lemma InvKeepsCounters(cfg: Config, s: Sched)
    requires Inv(cfg, s)
    ensures CountersHold(cfg, s)
  {
    hide ValidRun, WithinBudgets, Flown, LiveOK, SavedAgrees, Total, Counter;
    RecordsOf(cfg, s.run);
  }

  // Budget safety along every run, whether it was planned, resumed or refreshed.
  lemma BudgetsAreNeverExceeded(cfg: Config, w: World, es: seq<Event>)
    requires Inv(cfg, w.s) && Trace(cfg, w, es)
    ensures BudgetsHold(cfg, After(cfg, w, es).s)
  {
    hide Trace, After, Inv, BudgetsHold;
    InvKeepsBudgets(cfg, After(cfg, w, es).s);
  }

  // Incremental accounting equals recomputation along every run.
  lemma CountersAreRecomputable(cfg: Config, w: World, es: seq<Event>)
    requires Inv(cfg, w.s) && Trace(cfg, w, es)
    ensures CountersHold(cfg, After(cfg, w, es).s)
  {
    hide Trace, After, Inv, CountersHold;
    InvKeepsCounters(cfg, After(cfg, w, es).s);
  }

  // Both hold in every state that any history of runs, crashes and resumes of
  // a planned run goes through.
  lemma PlannedRunsAreSafe(cfg: Config, jobs: seq<Job>, now: int, steps: seq<Step>)
    requires ValidConfig(cfg) && Plannable(cfg, jobs)
    ensures CInv(cfg, Up(Start(jobs, now)))
    ensures History(cfg, Up(Start(jobs, now)), steps) ==>
      var c := AfterAll(cfg, Up(Start(jobs, now)), steps);
      c.Up? ==> BudgetsHold(cfg, c.w.s) && CountersHold(cfg, c.w.s)
  {
    hide Inv, BudgetsHold, CountersHold, ValidConfig, Plannable, NewRun, NewSched, History, AfterAll;
    PlannedRunIsValid(cfg, jobs);
    if History(cfg, Up(Start(jobs, now)), steps) {
      var c := AfterAll(cfg, Up(Start(jobs, now)), steps);
      if c.Up? {
        InvKeepsBudgets(cfg, c.w.s);
        InvKeepsCounters(cfg, c.w.s);
      }
    }
  }

  // A launch also respects the limits that hold at the time, halved while a
  // quota penalty lasts.
  lemma LaunchRespectsPenalties(cfg: Config, s: Sched, now: int, id: string, key: string)
    requires Inv(cfg, s) && id in s.run.jobs && s.run.jobs[id].status.Queued? && s.running < cfg.containerCap
    ensures var t := AdmitOne(cfg, s, now, id);
      t.run.jobs[id].status.Running? ==>
        && t.run.jobs[id].attempts != []
        && var region := ZoneRegion(LastZone(t.run.jobs[id]));
           key in BudgetKeys(cfg, s.run.jobs[id].job, region) ==>
             && LimitOf(t.usedCPU, region, key) <= Allowed(cfg, s, now, region, key)
             && ((key, region) in s.penalty && now < s.penalty[(key, region)] ==>
                   Allowed(cfg, s, now, region, key) == Usable(cfg, region, key) / 2)
  {
    var rec := s.run.jobs[id];
    hide PickZone, Launch, Blocked, Inv, Usable, BudgetKeys, Allowed, Admissible;
    if !Blocked(cfg, s, rec.job) {
      var avoid := AvoidZone(rec.attempts);
      var (zone, t) := PickZone(cfg, s, now, id, avoid);
      PickZoneFrame(cfg, s, now, id, avoid);
      if zone != "" {
        LaunchedWithin(cfg, s, now, id, avoid, key);
      }
    }
  }

  lemma LaunchedWithin(cfg: Config, s: Sched, now: int, id: string, avoid: string, key: string)
    requires Inv(cfg, s) && id in s.run.jobs && s.run.jobs[id].status.Queued? && s.running < cfg.containerCap
    requires !Blocked(cfg, s, s.run.jobs[id].job) && PickZone(cfg, s, now, id, avoid).0 != ""
    ensures var (zone, t) := PickZone(cfg, s, now, id, avoid);
      var u := Launch(cfg, t, now, id, zone);
      var region := ZoneRegion(zone);
      && id in u.run.jobs && u.run.jobs[id].attempts != [] && LastZone(u.run.jobs[id]) == zone
      && (key in BudgetKeys(cfg, s.run.jobs[id].job, region) ==>
            LimitOf(u.usedCPU, region, key) <= Allowed(cfg, s, now, region, key))
      && ((key, region) in s.penalty && now < s.penalty[(key, region)] ==>
            Allowed(cfg, s, now, region, key) == Usable(cfg, region, key) / 2)
  {
    hide PickZone, Launch, Blocked, Usable, BudgetKeys, Admissible, Inv, ZoneRegion, Allowed, OpenAttempt, Headroom;
    var (zone, t) := PickZone(cfg, s, now, id, avoid);
    PickZoneFrame(cfg, s, now, id, avoid);
    Steps.PickZoneKeepsInv(cfg, s, now, id, avoid);
    Steps.LaunchEffect(cfg, t, now, id, zone);
    OpenedAt(t.run.jobs[id], now, zone);
    Penalized(cfg, s, now, ZoneRegion(zone), key);
    if key in BudgetKeys(cfg, s.run.jobs[id].job, ZoneRegion(zone)) {
      PickedHasRoom(cfg, s, now, id, avoid, key);
      LaunchTakes(cfg, t, now, id, zone, key);
    }
  }

  lemma OpenedAt(rec: Record, now: int, zone: string)
    ensures OpenAttempt(rec, now, zone).attempts != [] && LastZone(OpenAttempt(rec, now, zone)) == zone
  {
  }

  lemma Penalized(cfg: Config, s: Sched, now: int, region: string, key: string)
    requires Inv(cfg, s)
    ensures (key, region) in s.penalty && now < s.penalty[(key, region)] ==>
      Allowed(cfg, s, now, region, key) == Usable(cfg, region, key) / 2
  {
    hide ValidRun, Accounts, Flown, LiveOK, SavedAgrees, WithinBudgets, Usable;
    UsableWithinLimit(cfg, region, key);
  }

  lemma PickedHasRoom(cfg: Config, s: Sched, now: int, id: string, avoid: string, key: string)
    requires Inv(cfg, s) && id in s.run.jobs && s.run.jobs[id].status.Queued?
    requires PickZone(cfg, s, now, id, avoid).0 != ""
    ensures var (zone, t) := PickZone(cfg, s, now, id, avoid);
      key in BudgetKeys(cfg, s.run.jobs[id].job, ZoneRegion(zone)) ==>
        LimitOf(t.usedCPU, ZoneRegion(zone), key) + s.run.jobs[id].job.cpuCost
        <= Allowed(cfg, s, now, ZoneRegion(zone), key)
  {
    hide PickZone, BudgetKeys, Admissible, Inv, ZoneRegion, Allowed, ValidJob, CanPlace;
    var (zone, t) := PickZone(cfg, s, now, id, avoid);
    Steps.JobsAreValid(cfg, s, id);
    PickZoneFrame(cfg, s, now, id, avoid);
    PickZoneCompleteAndOptimal(cfg, s, now, id, avoid);
    if key in BudgetKeys(cfg, s.run.jobs[id].job, ZoneRegion(zone)) {
      Steps.AdmissibleHasRoom(cfg, s, now, Effective(s.run, now, id), zone, key);
    }
  }

  lemma LaunchTakes(cfg: Config, t: Sched, now: int, id: string, zone: string, key: string)
    requires Inv(cfg, t) && id in t.run.jobs && t.run.jobs[id].status.Queued?
    requires key in BudgetKeys(cfg, t.run.jobs[id].job, ZoneRegion(zone))
    ensures LimitOf(Launch(cfg, t, now, id, zone).usedCPU, ZoneRegion(zone), key)
      == LimitOf(t.usedCPU, ZoneRegion(zone), key) + t.run.jobs[id].job.cpuCost
  {
    hide Launch, BudgetKeys, ZoneRegion, ValidRun, Accounts, Flown, LiveOK, SavedAgrees, WithinBudgets;
    Steps.LaunchKeepsAccounts(cfg, t, now, id, zone);
    assert Counter(Launch(cfg, t, now, id, zone), CPU(ZoneRegion(zone), key))
      == Counter(t, CPU(ZoneRegion(zone), key))
         + Demand(cfg, CPU(ZoneRegion(zone), key), t.run.jobs[id].job, ZoneRegion(zone));
  }
}
