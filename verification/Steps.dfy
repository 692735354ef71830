// Every operation of the scheduler keeps the invariants.
module Steps {
  import opened Names
  import opened Jobs
  import opened Budgets
  import opened Spec
  import opened Picking
  import opened Accounting
  import opened Invariants

  // ---------------------------------------------------------------- pickZone

  lemma StartSweepKeepsRun(cfg: Config, run: RunData, now: int, id: string)
    requires ValidRun(cfg, run) && id in run.jobs && run.jobs[id].status.Queued?
    ensures ValidRun(cfg, StartSweep(run, now, id))
  {
    hide Feasible;
    var t := StartSweep(run, now, id);
    forall i | i in t.jobs ensures ValidRecord(i, t.jobs[i]) && SweepOK(cfg, t.cooldowns, i, t.jobs[i]) {
      assert ValidRecord(i, run.jobs[i]) && SweepOK(cfg, run.cooldowns, i, run.jobs[i]);
      if i == id && t != run {
        var z :| z in Feasible(cfg, t.jobs[i].job);
      }
    }
  }

  // Changing one record without changing its share leaves every total alone.
  lemma AccountsFrame(cfg: Config, s: Sched, t: Sched, id: string)
    requires ValidRun(cfg, s.run) && Accounts(cfg, s) && id in s.run.jobs && id in t.run.jobs
    requires forall m :: Counter(t, m) == Counter(s, m)
    requires t.run.order == s.run.order && t.run.jobs == s.run.jobs[id := t.run.jobs[id]]
    requires forall m :: Share(cfg, m, t.run.jobs[id]) == Share(cfg, m, s.run.jobs[id])
    ensures Accounts(cfg, t)
  {
    hide Counter, Share;
    forall m ensures Counter(t, m) == Total(cfg, m, t.run.order, t.run.jobs) {
      TotalUpdate(cfg, m, s.run.order, s.run.jobs, id, t.run.jobs[id]);
    }
  }

  // t differs from s in nothing that is counted, in flight or on disk.
  ghost predicate SameOutside(s: Sched, t: Sched, id: string) {
    && t == s.(run := t.run, zoneRR := t.zoneRR)
    && t.run.order == s.run.order
    && id in s.run.jobs
    && t.run.jobs.Keys == s.run.jobs.Keys
    && (forall i :: i in s.run.jobs && i != id ==> t.run.jobs[i] == s.run.jobs[i])
    && t.run.jobs[id] == s.run.jobs[id].(swept := t.run.jobs[id].swept)
  }

  // The two job tables differ in sweeps alone.
  ghost predicate SameCore(jobs: map<string, Record>, jobs': map<string, Record>) {
    jobs.Keys == jobs'.Keys && forall i :: i in jobs ==>
      jobs'[i].job == jobs[i].job && jobs'[i].status == jobs[i].status && jobs'[i].attempts == jobs[i].attempts
  }

  lemma SameCoreKeepsFlights(s: Sched, t: Sched)
    requires SameCore(s.run.jobs, t.run.jobs) && Flown(s) && t.flights == s.flights
    ensures Flown(t)
  {
    forall f ensures t.flights[f] == if InFlight(t.run.jobs, f) then 1 else 0 {
      assert s.flights[f] == if InFlight(s.run.jobs, f) then 1 else 0;
    }
  }

  lemma SameCoreKeepsSaved(s: Sched, t: Sched)
    requires SameCore(s.run.jobs, t.run.jobs) && t.run.order == s.run.order
    requires SavedAgrees(s) && LiveOK(s.run.jobs, s.live) && t.saved == s.saved && t.live == s.live
    ensures SavedAgrees(t) && LiveOK(t.run.jobs, t.live)
  {
  }

  // Counters that have not grown stay within the budgets.
  lemma SmallerCountersKeepBudgets(cfg: Config, s: Sched, t: Sched)
    requires WithinBudgets(cfg, s)
    requires forall m :: Counter(t, m) <= Counter(s, m)
    requires s.run.jobs.Keys <= t.run.jobs.Keys
    requires forall i :: i in s.run.jobs ==> t.run.jobs[i].job == s.run.jobs[i].job
    ensures WithinBudgets(cfg, t)
  {
    hide Usable;
    assert Counter(t, Networks) <= cfg.networks && Counter(t, Subnets) <= cfg.subnetworks;
    assert Counter(t, Slots) <= cfg.containerCap;
    forall r, k ensures LimitOf(t.usedCPU, r, k) <= Usable(cfg, r, k) {
      assert Counter(t, CPU(r, k)) <= Counter(s, CPU(r, k));
    }
    forall shape, cap | SharedCap(t.run.jobs, shape, cap) ensures GetOr(t.perShape, shape, 0) <= cap {
      assert SharedCap(s.run.jobs, shape, cap);
      assert Counter(t, ShapeSlots(shape)) <= Counter(s, ShapeSlots(shape));
    }
  }

  lemma PickZoneKeepsAccounts(cfg: Config, s: Sched, now: int, id: string, avoid: string)
    requires ValidRun(cfg, s.run) && Accounts(cfg, s) && id in s.run.jobs && s.run.jobs[id].status.Queued?
    ensures var t := PickZone(cfg, s, now, id, avoid).1;
      ValidRun(cfg, t.run) && Accounts(cfg, t)
  {
    hide PickZone, ValidRun;
    PickZoneFrame(cfg, s, now, id, avoid);
    StartSweepKeepsRun(cfg, s.run, now, id);
    AccountsFrame(cfg, s, PickZone(cfg, s, now, id, avoid).1, id);
  }

  lemma PickZoneKeepsInv(cfg: Config, s: Sched, now: int, id: string, avoid: string)
    requires Inv(cfg, s) && id in s.run.jobs && s.run.jobs[id].status.Queued?
    ensures Inv(cfg, PickZone(cfg, s, now, id, avoid).1)
  {
    hide PickZone, ValidRun, Flown, LiveOK, WithinBudgets, SavedAgrees;
    var t := PickZone(cfg, s, now, id, avoid).1;
    PickZoneFrame(cfg, s, now, id, avoid);
    PickZoneKeepsAccounts(cfg, s, now, id, avoid);
    assert SameOutside(s, t, id);
    assert SameCore(s.run.jobs, t.run.jobs);
    SameCoreKeepsFlights(s, t);
    SameCoreKeepsSaved(s, t);
    SmallerCountersKeepBudgets(cfg, s, t);
  }

  // ------------------------------------------------------------------ launch

  // Everything the admission loop has established when it launches a job.
  ghost predicate Launchable(cfg: Config, s: Sched, now: int, id: string, zone: string) {
    && id in s.run.jobs && s.run.jobs[id].status.Queued?
    && s.running < cfg.containerCap && !Blocked(cfg, s, s.run.jobs[id].job)
    && StockoutKey(id) !in s.run.cooldowns
    && Admissible(cfg, s, now, s.run.jobs[id], zone)
  }

  lemma CountersNonNegative(cfg: Config, s: Sched, m: Meter)
    requires ValidRun(cfg, s.run) && Accounts(cfg, s)
    ensures Counter(s, m) >= 0
  {
    hide SweepOK, ValidRecord;
    RecordsOf(cfg, s.run);
    TotalNonNegative(cfg, m, s.run.order, s.run.jobs);
  }

  lemma AllowedWithinUsable(cfg: Config, s: Sched, now: int, region: string, key: string)
    requires ValidConfig(cfg)
    ensures 0 <= Allowed(cfg, s, now, region, key) <= Usable(cfg, region, key)
  {
    UsableWithinLimit(cfg, region, key);
    hide Usable;
  }

  // An admissible zone has room under what is allowed right now, halved
  // limits included, for every key the job is charged to.
  lemma AdmissibleHasRoom(cfg: Config, s: Sched, now: int, rec: Record, z: string, key: string)
    requires ValidJob(rec.job) && Admissible(cfg, s, now, rec, z)
    requires key in BudgetKeys(cfg, rec.job, ZoneRegion(z))
    ensures LimitOf(s.usedCPU, ZoneRegion(z), key) + rec.job.cpuCost <= Allowed(cfg, s, now, ZoneRegion(z), key)
  {
    hide Allowed;
    HeadroomIsLeast(cfg, s, now, ZoneRegion(z), BudgetKeys(cfg, rec.job, ZoneRegion(z)), rec.job.cpuCost);
    assert Free(cfg, s, now, ZoneRegion(z), key) >= rec.job.cpuCost;
  }

  lemma AdmissibleIsFeasible(cfg: Config, s: Sched, now: int, rec: Record, z: string)
    requires ValidConfig(cfg) && ValidRun(cfg, s.run) && Accounts(cfg, s)
    requires ValidJob(rec.job) && Admissible(cfg, s, now, rec, z)
    ensures z in Feasible(cfg, rec.job)
  {
    hide Allowed, Usable, Headroom, ValidRun;
    var region := ZoneRegion(z);
    forall key | key in BudgetKeys(cfg, rec.job, region) ensures Usable(cfg, region, key) >= rec.job.cpuCost {
      AdmissibleHasRoom(cfg, s, now, rec, z, key);
      AllowedWithinUsable(cfg, s, now, region, key);
      CountersNonNegative(cfg, s, CPU(region, key));
    }
  }

  lemma LaunchEffect(cfg: Config, s: Sched, now: int, id: string, zone: string)
    requires id in s.run.jobs
    ensures var t := Launch(cfg, s, now, id, zone);
      && t.run == s.run.(jobs := s.run.jobs[id := OpenAttempt(s.run.jobs[id], now, zone)])
      && t.saved == t.run
      && t.flights == s.flights + multiset{Flight(id, zone, now)}
      && t.live == s.live + multiset{id}
  {
  }

  lemma LaunchFrame(cfg: Config, s: Sched, now: int, id: string, zone: string)
    requires id in s.run.jobs
    ensures var t := Launch(cfg, s, now, id, zone);
      t.penalty == s.penalty && t.hits == s.hits && t.zoneRR == s.zoneRR
  {
  }

  lemma LaunchKeepsRun(cfg: Config, s: Sched, now: int, id: string, zone: string)
    requires ValidConfig(cfg) && ValidRun(cfg, s.run) && Accounts(cfg, s)
    requires Launchable(cfg, s, now, id, zone)
    ensures ValidRun(cfg, Launch(cfg, s, now, id, zone).run)
  {
    hide Headroom, Launch, Accounts, ValidRun, Feasible;
    var rec := s.run.jobs[id];
    RecordOf(cfg, s.run, id);
    AdmissibleIsFeasible(cfg, s, now, rec, zone);
    LaunchEffect(cfg, s, now, id, zone);
    var open := OpenAttempt(rec, now, zone);
    assert ValidRecord(id, open) && SweepOK(cfg, s.run.cooldowns, id, open);
    OneRecordKeepsRun(cfg, s.run, Launch(cfg, s, now, id, zone).run, id);
  }

  lemma LaunchCharges(cfg: Config, s: Sched, now: int, id: string, zone: string)
    requires id in s.run.jobs
    ensures forall m ::
      Counter(Launch(cfg, s, now, id, zone), m) == Counter(Charge(cfg, s, s.run.jobs[id].job, ZoneRegion(zone), 1), m)
  {
    hide AddCPU, BudgetKeys;
  }

  lemma OpenedShare(cfg: Config, id: string, rec: Record, now: int, zone: string)
    requires ValidRecord(id, rec) && rec.status.Queued?
    ensures forall m :: Share(cfg, m, rec) == 0
    ensures forall m :: Share(cfg, m, OpenAttempt(rec, now, zone)) == Demand(cfg, m, rec.job, ZoneRegion(zone))
  {
    hide Demand;
  }

  lemma LaunchKeepsAccounts(cfg: Config, s: Sched, now: int, id: string, zone: string)
    requires ValidRun(cfg, s.run) && Accounts(cfg, s)
    requires id in s.run.jobs && s.run.jobs[id].status.Queued?
    ensures Accounts(cfg, Launch(cfg, s, now, id, zone))
    ensures forall m ::
      Counter(Launch(cfg, s, now, id, zone), m) == Counter(s, m) + Demand(cfg, m, s.run.jobs[id].job, ZoneRegion(zone))
  {
    hide Launch, Charge, ValidRun, ValidRecord, SweepOK, Demand, Counter;
    var t := Launch(cfg, s, now, id, zone);
    var rec := s.run.jobs[id];
    RecordOf(cfg, s.run, id);
    OpenedShare(cfg, id, rec, now, zone);
    LaunchEffect(cfg, s, now, id, zone);
    LaunchCharges(cfg, s, now, id, zone);
    OrderOf(cfg, s.run);
    forall m
      ensures Counter(t, m) == Total(cfg, m, t.run.order, t.run.jobs)
      ensures Counter(t, m) == Counter(s, m) + Demand(cfg, m, rec.job, ZoneRegion(zone))
    {
      ChargeMovesMeters(cfg, s, rec.job, ZoneRegion(zone), 1, m);
      TotalUpdate(cfg, m, s.run.order, s.run.jobs, id, t.run.jobs[id]);
    }
  }

  lemma OpenedInFlight(jobs: map<string, Record>, id: string, now: int, zone: string, f: Flight)
    requires id in jobs && !IsOpen(jobs[id])
    ensures InFlight(jobs[id := OpenAttempt(jobs[id], now, zone)], f)
        <==> InFlight(jobs, f) || f == Flight(id, zone, now)
    ensures f.id == id ==> !InFlight(jobs, f)
  {
  }

  lemma LaunchKeepsFlights(cfg: Config, s: Sched, now: int, id: string, zone: string)
    requires Flown(s) && LiveOK(s.run.jobs, s.live)
    requires id in s.run.jobs && s.run.jobs[id].status.Queued? && !IsOpen(s.run.jobs[id])
    ensures var t := Launch(cfg, s, now, id, zone);
      Flown(t) && LiveOK(t.run.jobs, t.live)
  {
    hide Launch, InFlight, IsOpen;
    var t := Launch(cfg, s, now, id, zone);
    LaunchEffect(cfg, s, now, id, zone);
    forall f ensures t.flights[f] == if InFlight(t.run.jobs, f) then 1 else 0 {
      OpenedInFlight(s.run.jobs, id, now, zone, f);
    }
  }

  lemma LaunchKeepsBudgets(cfg: Config, s: Sched, now: int, id: string, zone: string)
    requires ValidConfig(cfg) && ValidRun(cfg, s.run) && Accounts(cfg, s) && WithinBudgets(cfg, s)
    requires Launchable(cfg, s, now, id, zone)
    ensures WithinBudgets(cfg, Launch(cfg, s, now, id, zone))
  {
    hide Launch, Usable, Allowed, ValidRun, Accounts, Admissible, SweepOK;
    var t := Launch(cfg, s, now, id, zone);
    var rec := s.run.jobs[id];
    var region := ZoneRegion(zone);
    RecordOf(cfg, s.run, id);
    LaunchEffect(cfg, s, now, id, zone);
    LaunchKeepsAccounts(cfg, s, now, id, zone);
    forall r, k ensures LimitOf(t.usedCPU, r, k) <= Usable(cfg, r, k) {
      assert Counter(t, CPU(r, k)) == Counter(s, CPU(r, k)) + Demand(cfg, CPU(r, k), rec.job, region);
      if r == region && k in BudgetKeys(cfg, rec.job, region) {
        AdmissibleHasRoom(cfg, s, now, rec, zone, k);
        AllowedWithinUsable(cfg, s, now, region, k);
      }
    }
    assert Counter(t, Networks) <= cfg.networks && Counter(t, Subnets) <= cfg.subnetworks;
    assert Counter(t, Slots) <= cfg.containerCap;
    forall shape, cap | SharedCap(t.run.jobs, shape, cap) ensures GetOr(t.perShape, shape, 0) <= cap {
      assert t.run.jobs[id].job == rec.job;
      forall i | i in s.run.jobs && s.run.jobs[i].job.shape == shape ensures s.run.jobs[i].job.maxParallel == cap {
        assert i in t.run.jobs;
      }
      assert SharedCap(s.run.jobs, shape, cap);
      assert Counter(t, ShapeSlots(shape))
          == Counter(s, ShapeSlots(shape)) + Demand(cfg, ShapeSlots(shape), rec.job, region);
    }
  }

  lemma LaunchKeepsInv(cfg: Config, s: Sched, now: int, id: string, zone: string)
    requires Inv(cfg, s) && Launchable(cfg, s, now, id, zone)
    ensures Inv(cfg, Launch(cfg, s, now, id, zone))
  {
    hide Launch, ValidRun, Accounts, Flown, LiveOK, WithinBudgets, SavedAgrees, Launchable, ValidConfig;
    QueuedIsClosed(cfg, s, now, id, zone);
    LaunchKeepsRun(cfg, s, now, id, zone);
    LaunchKeepsAccounts(cfg, s, now, id, zone);
    LaunchKeepsFlights(cfg, s, now, id, zone);
    LaunchKeepsBudgets(cfg, s, now, id, zone);
    LaunchEffect(cfg, s, now, id, zone);
    JustSaved(Launch(cfg, s, now, id, zone));
  }

  lemma QueuedIsClosed(cfg: Config, s: Sched, now: int, id: string, zone: string)
    requires Inv(cfg, s) && Launchable(cfg, s, now, id, zone)
    ensures id in s.run.jobs && s.run.jobs[id].status.Queued? && !IsOpen(s.run.jobs[id])
  {
    hide Inv, Admissible, Blocked;
    JobsAreValid(cfg, s, id);
  }

  lemma JustSaved(s: Sched)
    requires s.saved == s.run
    ensures SavedAgrees(s)
  {
  }

  // ------------------------------------------------------------------- admit

  // When a job is given a zone, launching it there is within every limit.
  lemma PickedIsLaunchable(cfg: Config, s: Sched, now: int, id: string, avoid: string)
    requires id in s.run.jobs && s.run.jobs[id].status.Queued? && ValidJob(s.run.jobs[id].job)
    requires s.running < cfg.containerCap && !Blocked(cfg, s, s.run.jobs[id].job)
    ensures var (zone, t) := PickZone(cfg, s, now, id, avoid);
      zone != "" ==> Launchable(cfg, t, now, id, zone)
  {
    hide Headroom, PickZone, StartSweep, ValidJob;
    var (zone, t) := PickZone(cfg, s, now, id, avoid);
    if zone != "" {
      PickZoneFrame(cfg, s, now, id, avoid);
      PickZoneCompleteAndOptimal(cfg, s, now, id, avoid);
      var rec := t.run.jobs[id];
      assert Admissible(cfg, s, now, rec, zone);
      HeadroomEq(cfg, s, t, now, rec.job, ZoneRegion(zone));
      StartSweepKeepsQuota(s.run, now, id, rec.job.budgetKey, ZoneRegion(zone));
    }
  }

  lemma StartSweepKeepsQuota(run: RunData, now: int, id: string, budgetKey: string, region: string)
    requires id in run.jobs
    ensures Cooling(StartSweep(run, now, id).cooldowns, QuotaKey(budgetKey, region), now)
        == Cooling(run.cooldowns, QuotaKey(budgetKey, region), now)
  {
  }

  lemma HeadroomEq(cfg: Config, s: Sched, t: Sched, now: int, job: Job, region: string)
    requires s.penalty == t.penalty && s.usedCPU == t.usedCPU
    ensures Headroom(cfg, s, now, job, region) == Headroom(cfg, t, now, job, region)
  {
    HeadroomFrame(cfg, s, t, now, region, BudgetKeys(cfg, job, region));
  }

  lemma JobsAreValid(cfg: Config, s: Sched, id: string)
    requires Inv(cfg, s) && id in s.run.jobs
    ensures ValidRecord(id, s.run.jobs[id])
  {
    hide SweepOK, Accounts, WithinBudgets, Flown, LiveOK, SavedAgrees;
  }

  lemma ConfigOf(cfg: Config, s: Sched)
    requires Inv(cfg, s)
    ensures ValidConfig(cfg)
  {
    hide ValidConfig, ValidRun, Accounts, WithinBudgets, Flown, LiveOK, SavedAgrees;
  }

  lemma OrderListsJobs(cfg: Config, s: Sched)
    requires Inv(cfg, s)
    ensures forall id :: id in s.run.order <==> id in s.run.jobs
  {
    hide SweepOK, ValidRecord, Accounts, WithinBudgets, Flown, LiveOK, SavedAgrees;
  }

  lemma AdmitOneKeepsInv(cfg: Config, s: Sched, now: int, id: string)
    requires Inv(cfg, s) && id in s.run.jobs
    requires s.run.jobs[id].status.Queued? ==> s.running < cfg.containerCap
    ensures Inv(cfg, AdmitOne(cfg, s, now, id))
  {
    hide Inv, PickZone, Launch;
    if s.run.jobs[id].status.Queued? && !Blocked(cfg, s, s.run.jobs[id].job) {
      var avoid := AvoidZone(s.run.jobs[id].attempts);
      JobsAreValid(cfg, s, id);
      PickedIsLaunchable(cfg, s, now, id, avoid);
      PickZoneKeepsInv(cfg, s, now, id, avoid);
      var (zone, t) := PickZone(cfg, s, now, id, avoid);
      if zone != "" {
        LaunchKeepsInv(cfg, t, now, id, zone);
      }
    }
  }

  // One turn at a time: the loop stops, or goes on after its first turn.
  lemma AdmitFromStep(cfg: Config, s: Sched, now: int, ids: seq<string>)
    requires forall id :: id in ids ==> id in s.run.jobs
    ensures AdmitFrom(cfg, s, now, ids) ==
      if ids == [] || (s.run.jobs[ids[0]].status == Queued && s.running >= cfg.containerCap) then s
      else AdmitFrom(cfg, AdmitOne(cfg, s, now, ids[0]), now, ids[1..])
  {
    hide AdmitOne;
  }

  lemma {:induction false} AdmitKeepsInv(cfg: Config, s: Sched, now: int, ids: seq<string>)
    requires Inv(cfg, s) && forall id :: id in ids ==> id in s.run.jobs
    ensures Inv(cfg, AdmitFrom(cfg, s, now, ids))
    decreases |ids|
  {
    hide Inv, AdmitOne;
    if ids != [] && !(s.run.jobs[ids[0]].status == Queued && s.running >= cfg.containerCap) {
      AdmitOneKeepsInv(cfg, s, now, ids[0]);
      AdmitKeepsInv(cfg, AdmitOne(cfg, s, now, ids[0]), now, ids[1..]);
    }
  }
}
