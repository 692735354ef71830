// What one admission pass achieves: it conserves work, and it makes progress
// whenever the scheduler is idle and its timers have run out.
module Admission {
  import opened Names
  import opened Jobs
  import opened Budgets
  import opened Spec
  import opened Picking
  import opened Accounting
  import opened Invariants
  import Steps

  // The admission loop would pass this job over.
  ghost predicate Stuck(cfg: Config, s: Sched, now: int, id: string)
    requires id in s.run.jobs
  {
    Blocked(cfg, s, s.run.jobs[id].job) || !CanPlace(cfg, s, now, id)
  }

  // From s to t other jobs were admitted: nothing got freer, and this job's
  // record and cooldowns are as before.
  ghost predicate Tighter(s: Sched, t: Sched, id: string) {
    && id in s.run.jobs && id in t.run.jobs && t.run.jobs[id] == s.run.jobs[id]
    && t.penalty == s.penalty
    && (forall m :: Counter(t, m) >= Counter(s, m))
    && (forall b, r :: QuotaKey(b, r) in s.run.cooldowns ==>
          QuotaKey(b, r) in t.run.cooldowns && t.run.cooldowns[QuotaKey(b, r)] == s.run.cooldowns[QuotaKey(b, r)])
    && (StockoutKey(id) in s.run.cooldowns <==> StockoutKey(id) in t.run.cooldowns)
    && (StockoutKey(id) in s.run.cooldowns ==> t.run.cooldowns[StockoutKey(id)] == s.run.cooldowns[StockoutKey(id)])
  }

  lemma {:induction false} TighterHeadroom(cfg: Config, s: Sched, t: Sched, now: int, region: string, keys: seq<string>)
    requires t.penalty == s.penalty && forall m :: Counter(t, m) >= Counter(s, m)
    ensures HeadroomOver(cfg, t, now, region, keys) <= HeadroomOver(cfg, s, now, region, keys)
  {
    hide Usable;
    if keys != [] {
      TighterHeadroom(cfg, s, t, now, region, keys[..|keys| - 1]);
      assert Counter(t, CPU(region, keys[|keys| - 1])) >= Counter(s, CPU(region, keys[|keys| - 1]));
    }
  }

  lemma PlaceableBefore(cfg: Config, s: Sched, t: Sched, now: int, id: string)
    requires Tighter(s, t, id) && CanPlace(cfg, t, now, id)
    ensures CanPlace(cfg, s, now, id)
  {
    hide Headroom;
    var rec := Effective(t.run, now, id);
    var z :| Admissible(cfg, t, now, rec, z);
    HeadroomShrinks(cfg, s, t, now, rec.job, ZoneRegion(z));
    assert Admissible(cfg, s, now, Effective(s.run, now, id), z);
  }

  // A job passed over stays passed over while others are admitted.
  lemma StuckStays(cfg: Config, s: Sched, t: Sched, now: int, id: string)
    requires Tighter(s, t, id) && Stuck(cfg, s, now, id)
    ensures Stuck(cfg, t, now, id)
  {
    hide CanPlace;
    assert Counter(t, Networks) >= Counter(s, Networks) && Counter(t, Subnets) >= Counter(s, Subnets)
      && Counter(t, ShapeSlots(s.run.jobs[id].job.shape)) >= Counter(s, ShapeSlots(s.run.jobs[id].job.shape));
    if CanPlace(cfg, t, now, id) {
      PlaceableBefore(cfg, s, t, now, id);
    }
  }

  lemma HeadroomShrinks(cfg: Config, s: Sched, t: Sched, now: int, job: Job, region: string)
    requires t.penalty == s.penalty && forall m :: Counter(t, m) >= Counter(s, m)
    ensures Headroom(cfg, t, now, job, region) <= Headroom(cfg, s, now, job, region)
  {
    TighterHeadroom(cfg, s, t, now, region, BudgetKeys(cfg, job, region));
  }

  lemma StartSweepCooldowns(run: RunData, now: int, id: string)
    requires id in run.jobs
    ensures var t := StartSweep(run, now, id);
      forall key :: key != StockoutKey(id) ==>
        (key in t.cooldowns <==> key in run.cooldowns)
        && (key in run.cooldowns ==> t.cooldowns[key] == run.cooldowns[key])
  {
  }

  // One turn of the loop changes this job's record and sweep cooldown only,
  // takes it from queued to running if at all, and frees nothing.
  ghost predicate AdmitChanges(s: Sched, t: Sched, id: string)
    requires id in s.run.jobs
  {
    && id in t.run.jobs
    && t.run.order == s.run.order && t.run.jobs == s.run.jobs[id := t.run.jobs[id]]
    && t.run.jobs[id].job == s.run.jobs[id].job
    && t.penalty == s.penalty && t.hits == s.hits
    && (forall key :: key != StockoutKey(id) ==>
        (key in t.run.cooldowns <==> key in s.run.cooldowns)
        && (key in s.run.cooldowns ==> t.run.cooldowns[key] == s.run.cooldowns[key]))
    && (t.run.jobs[id].status == s.run.jobs[id].status
        || (s.run.jobs[id].status.Queued? && t.run.jobs[id].status.Running?))
    && (forall m :: Counter(t, m) >= Counter(s, m))
  }

  lemma PickZoneChanges(cfg: Config, s: Sched, now: int, id: string, avoid: string)
    requires id in s.run.jobs
    ensures var t := PickZone(cfg, s, now, id, avoid).1;
      AdmitChanges(s, t, id) && t.run.jobs[id].status == s.run.jobs[id].status
  {
    hide PickZone, StartSweep;
    PickZoneFrame(cfg, s, now, id, avoid);
    StartSweepCooldowns(s.run, now, id);
  }

  lemma LaunchChanges(cfg: Config, s: Sched, now: int, id: string, zone: string)
    requires ValidRun(cfg, s.run) && Accounts(cfg, s)
    requires id in s.run.jobs && s.run.jobs[id].status.Queued?
    ensures AdmitChanges(s, Launch(cfg, s, now, id, zone), id)
  {
    hide Launch, ValidRun, Accounts, SweepOK, Counter, Demand;
    var rec := s.run.jobs[id];
    RecordOf(cfg, s.run, id);
    Steps.LaunchEffect(cfg, s, now, id, zone);
    Steps.LaunchKeepsAccounts(cfg, s, now, id, zone);
    Steps.LaunchFrame(cfg, s, now, id, zone);
    DemandNonNegative(cfg, rec.job, ZoneRegion(zone));
  }

  lemma ChangesCompose(s: Sched, t: Sched, u: Sched, id: string)
    requires id in s.run.jobs && AdmitChanges(s, t, id) && AdmitChanges(t, u, id)
    ensures AdmitChanges(s, u, id)
  {
    hide Counter;
  }

  lemma AdmitOneChanges(cfg: Config, s: Sched, now: int, id: string)
    requires ValidRun(cfg, s.run) && Accounts(cfg, s) && id in s.run.jobs
    ensures AdmitChanges(s, AdmitOne(cfg, s, now, id), id)
  {
    var rec := s.run.jobs[id];
    hide PickZone, Launch, ValidRun, Accounts, Blocked;
    if rec.status.Queued? && !Blocked(cfg, s, rec.job) {
      var avoid := AvoidZone(rec.attempts);
      var (zone, t) := PickZone(cfg, s, now, id, avoid);
      PickZoneChanges(cfg, s, now, id, avoid);
      if zone != "" {
        Steps.PickZoneKeepsAccounts(cfg, s, now, id, avoid);
        LaunchChanges(cfg, t, now, id, zone);
        ChangesCompose(s, t, Launch(cfg, t, now, id, zone), id);
      }
    } else {
      assert s.run.jobs == s.run.jobs[id := rec];
    }
  }

  // A job that stays queued after its turn is stuck.
  lemma AdmitOneLaunchesOrSticks(cfg: Config, s: Sched, now: int, id: string)
    requires id in s.run.jobs && ValidJob(s.run.jobs[id].job)
    ensures var t := AdmitOne(cfg, s, now, id);
      t.run.jobs[id].status.Queued? ==> Stuck(cfg, t, now, id)
  {
    hide PickZone, Launch, Stuck, ValidJob, Blocked;
    var rec := s.run.jobs[id];
    if rec.status.Queued? {
      if Blocked(cfg, s, rec.job) {
        BlockedIsStuck(cfg, s, now, id);
      } else {
        var avoid := AvoidZone(rec.attempts);
        var (zone, t) := PickZone(cfg, s, now, id, avoid);
        if zone == "" {
          UnplacedIsStuck(cfg, s, now, id, avoid);
        } else {
          Steps.LaunchEffect(cfg, t, now, id, zone);
        }
      }
    }
  }

  lemma BlockedIsStuck(cfg: Config, s: Sched, now: int, id: string)
    requires id in s.run.jobs && Blocked(cfg, s, s.run.jobs[id].job)
    ensures Stuck(cfg, s, now, id)
  {
  }

  lemma PlaceableBeforePick(cfg: Config, s: Sched, now: int, id: string, avoid: string)
    requires id in s.run.jobs && CanPlace(cfg, PickZone(cfg, s, now, id, avoid).1, now, id)
    ensures CanPlace(cfg, s, now, id)
  {
    hide Headroom, PickZone;
    var t := PickZone(cfg, s, now, id, avoid).1;
    PickZoneFrame(cfg, s, now, id, avoid);
    var rec := Effective(t.run, now, id);
    var z :| Admissible(cfg, t, now, rec, z);
    Steps.HeadroomEq(cfg, s, t, now, rec.job, ZoneRegion(z));
    Steps.StartSweepKeepsQuota(s.run, now, id, rec.job.budgetKey, ZoneRegion(z));
    assert Admissible(cfg, s, now, Effective(s.run, now, id), z);
  }

  lemma UnplacedIsStuck(cfg: Config, s: Sched, now: int, id: string, avoid: string)
    requires id in s.run.jobs && ValidJob(s.run.jobs[id].job)
    requires PickZone(cfg, s, now, id, avoid).0 == ""
    ensures Stuck(cfg, PickZone(cfg, s, now, id, avoid).1, now, id)
  {
    hide PickZone, ValidJob, CanPlace;
    var t := PickZone(cfg, s, now, id, avoid).1;
    PickZoneCompleteAndOptimal(cfg, s, now, id, avoid);
    if CanPlace(cfg, t, now, id) {
      PlaceableBeforePick(cfg, s, now, id, avoid);
    }
  }

  lemma ChangesTighten(s: Sched, t: Sched, id: string, other: string)
    requires id in s.run.jobs && AdmitChanges(s, t, id) && other in t.run.jobs && other != id
    ensures other in s.run.jobs && t.run.jobs[other] == s.run.jobs[other] && Tighter(s, t, other)
  {
  }

  // Every job of the set that is still queued is stuck.
  ghost predicate AllStuck(cfg: Config, s: Sched, now: int, ids: set<string>) {
    forall id :: id in ids && id in s.run.jobs && s.run.jobs[id].status.Queued? ==> Stuck(cfg, s, now, id)
  }

  lemma AdmitOneSticks(cfg: Config, s: Sched, now: int, id: string, done: set<string>)
    requires Inv(cfg, s) && id in s.run.jobs && AllStuck(cfg, s, now, done)
    ensures AllStuck(cfg, AdmitOne(cfg, s, now, id), now, done + {id})
  {
    hide AdmitOne, Stuck, ValidRun, Accounts, Flown, LiveOK, SavedAgrees, WithinBudgets, AdmitChanges, Tighter;
    hide ValidRecord;
    Steps.JobsAreValid(cfg, s, id);
    AdmitOneChanges(cfg, s, now, id);
    AdmitOneLaunchesOrSticks(cfg, s, now, id) by { assert ValidRecord(id, s.run.jobs[id]); JobOf(id, s.run.jobs[id]); }
    hide Inv;
    var t := AdmitOne(cfg, s, now, id);
    forall i | i in done && i != id && i in t.run.jobs && t.run.jobs[i].status.Queued? ensures Stuck(cfg, t, now, i) {
      ChangesTighten(s, t, id, i);
      StuckStays(cfg, s, t, now, i);
    }
  }

  lemma JobOf(id: string, rec: Record)
    requires ValidRecord(id, rec)
    ensures ValidJob(rec.job)
  {
  }

  lemma {:induction false} AdmitSticks(cfg: Config, s: Sched, now: int, ids: seq<string>, done: set<string>)
    requires Inv(cfg, s) && AllStuck(cfg, s, now, done)
    requires forall id :: id in ids ==> id in s.run.jobs
    ensures var t := AdmitFrom(cfg, s, now, ids);
      t.running >= cfg.containerCap || AllStuck(cfg, t, now, done + set id | id in ids)
    decreases |ids|
  {
    hide AdmitOne, AllStuck, Inv;
    if ids == [] {
      assert done + (set id | id in ids) == done;
    } else if !(s.run.jobs[ids[0]].status == Queued && s.running >= cfg.containerCap) {
      Steps.AdmitOneKeepsInv(cfg, s, now, ids[0]);
      AdmitOneSticks(cfg, s, now, ids[0], done);
      AdmitSticks(cfg, AdmitOne(cfg, s, now, ids[0]), now, ids[1..], done + {ids[0]});
      assert done + {ids[0]} + (set id | id in ids[1..]) == done + (set id | id in ids);
    }
  }

  // Admission conserves work: after a pass the container cap is reached, or no
  // job still queued could be launched in the state the pass leaves behind.
  lemma AdmitConservesWork(cfg: Config, s: Sched, now: int)
    requires Inv(cfg, s)
    ensures var t := AdmitFrom(cfg, s, now, s.run.order);
      t.running >= cfg.containerCap
      || forall id :: id in t.run.jobs && t.run.jobs[id].status.Queued? ==> Stuck(cfg, t, now, id)
  {
    hide Stuck, AdmitFrom, SweepOK, ValidRecord, Accounts, Flown, LiveOK, SavedAgrees, WithinBudgets;
    AdmitSticks(cfg, s, now, s.run.order, {});
  }

  // ---------------------------------------------------------------- progress

  ghost predicate TimersExpired(s: Sched, now: int) {
    && (forall key :: key in s.run.cooldowns ==> s.run.cooldowns[key] <= now)
    && (forall p :: p in s.penalty ==> s.penalty[p] <= now)
  }

  // The job alone fits the two network budgets, which plan time does not check.
  ghost predicate FitsNetworks(cfg: Config, job: Job) {
    job.networks <= cfg.networks && job.subnets <= cfg.subnetworks
  }

  lemma IdleZoneIsAdmissible(cfg: Config, s: Sched, now: int, rec: Record, z: string)
    requires ValidConfig(cfg) && ValidRun(cfg, s.run) && Accounts(cfg, s) && s.running == 0
    requires TimersExpired(s, now) && ValidJob(rec.job)
    requires z in Feasible(cfg, rec.job) && z !in rec.swept
    ensures Admissible(cfg, s, now, rec, z)
  {
    hide Usable, ValidRun, Accounts, BudgetKeys;
    var region := ZoneRegion(z);
    forall key | key in BudgetKeys(cfg, rec.job, region) ensures Free(cfg, s, now, region, key) >= rec.job.cpuCost {
      IdleMeansNothingCharged(cfg, s, CPU(region, key));
    }
    HeadroomIsLeast(cfg, s, now, region, BudgetKeys(cfg, rec.job, region), rec.job.cpuCost);
  }

  lemma IdleNotBlocked(cfg: Config, s: Sched, job: Job)
    requires ValidRun(cfg, s.run) && Accounts(cfg, s) && s.running == 0 && FitsNetworks(cfg, job)
    ensures !Blocked(cfg, s, job)
  {
    hide ValidRun, Accounts;
    IdleMeansNothingCharged(cfg, s, Networks);
    IdleMeansNothingCharged(cfg, s, Subnets);
    IdleMeansNothingCharged(cfg, s, ShapeSlots(job.shape));
  }

  // The record pickZone looks at has a feasible zone left to try.
  lemma EffectiveUntried(cfg: Config, run: RunData, now: int, id: string)
    requires ValidRun(cfg, run) && id in run.jobs && run.jobs[id].status.Queued?
    requires !Cooling(run.cooldowns, StockoutKey(id), now)
    ensures Untried(cfg, Effective(run, now, id)) && Effective(run, now, id).job == run.jobs[id].job
  {
    hide Feasible, ValidRecord;
    assert SweepOK(cfg, run.cooldowns, id, run.jobs[id]);
    if StockoutKey(id) in run.cooldowns {
      var z :| z in Feasible(cfg, run.jobs[id].job);
      assert z !in Effective(run, now, id).swept;
    }
  }

  // With nothing running and all timers expired no queued job is stuck.
  lemma IdleNotStuck(cfg: Config, s: Sched, now: int, id: string)
    requires Inv(cfg, s) && s.running == 0 && TimersExpired(s, now)
    requires id in s.run.jobs && s.run.jobs[id].status.Queued? && FitsNetworks(cfg, s.run.jobs[id].job)
    ensures !Stuck(cfg, s, now, id)
  {
    hide ValidRun, Accounts, Admissible, WithinBudgets, Flown, LiveOK, SavedAgrees, Feasible, Blocked, StartSweep;
    hide ValidRecord, FitsNetworks;
    Steps.JobsAreValid(cfg, s, id);
    JobOf(id, s.run.jobs[id]);
    IdleNotBlocked(cfg, s, s.run.jobs[id].job);
    EffectiveUntried(cfg, s.run, now, id);
    var e := Effective(s.run, now, id);
    var z :| z in Feasible(cfg, e.job) && z !in e.swept;
    IdleZoneIsAdmissible(cfg, s, now, e, z);
  }

  // Along a pass jobs only go from queued to running, and timers only vanish.
  ghost predicate PassChanges(s: Sched, t: Sched) {
    && t.run.order == s.run.order && t.run.jobs.Keys == s.run.jobs.Keys
    && t.penalty == s.penalty && t.hits == s.hits
    && (forall key :: key in t.run.cooldowns ==> key in s.run.cooldowns && t.run.cooldowns[key] == s.run.cooldowns[key])
    && (forall key :: key in s.run.cooldowns && !key.StockoutKey? ==> key in t.run.cooldowns)
    && (forall id :: id in s.run.jobs ==> t.run.jobs[id].job == s.run.jobs[id].job)
    && (forall id :: id in s.run.jobs ==>
          t.run.jobs[id].status == s.run.jobs[id].status
          || (s.run.jobs[id].status.Queued? && t.run.jobs[id].status.Running?))
  }

  lemma AdmitOnePasses(cfg: Config, s: Sched, now: int, id: string)
    requires Inv(cfg, s) && id in s.run.jobs
    ensures PassChanges(s, AdmitOne(cfg, s, now, id))
  {
    hide AdmitOne, ValidRun, Accounts, Counter;
    AdmitOneChanges(cfg, s, now, id);
    AdmitOneDropsCooldowns(cfg, s, now, id);
  }

  lemma AdmitOneDropsCooldowns(cfg: Config, s: Sched, now: int, id: string)
    requires id in s.run.jobs
    ensures var t := AdmitOne(cfg, s, now, id);
      forall key :: key in t.run.cooldowns ==> key in s.run.cooldowns && t.run.cooldowns[key] == s.run.cooldowns[key]
  {
    hide Blocked, PickZone, Launch;
    var avoid := AvoidZone(s.run.jobs[id].attempts);
    PickZoneFrame(cfg, s, now, id, avoid);
    var (zone, t) := PickZone(cfg, s, now, id, avoid);
    if zone != "" {
      Steps.LaunchEffect(cfg, t, now, id, zone);
    }
  }

  lemma PassCompose(s: Sched, t: Sched, u: Sched)
    requires PassChanges(s, t) && PassChanges(t, u)
    ensures PassChanges(s, u)
  {
  }

  lemma {:induction false} AdmitPasses(cfg: Config, s: Sched, now: int, ids: seq<string>)
    requires Inv(cfg, s) && forall id :: id in ids ==> id in s.run.jobs
    ensures PassChanges(s, AdmitFrom(cfg, s, now, ids))
    decreases |ids|
  {
    hide AdmitOne, Inv, AdmitFrom;
    Steps.AdmitFromStep(cfg, s, now, ids);
    if ids != [] && !(s.run.jobs[ids[0]].status == Queued && s.running >= cfg.containerCap) {
      var t := AdmitOne(cfg, s, now, ids[0]);
      AdmitOnePasses(cfg, s, now, ids[0]);
      Steps.AdmitOneKeepsInv(cfg, s, now, ids[0]);
      hide PassChanges;
      AdmitPasses(cfg, t, now, ids[1..]);
      PassCompose(s, t, AdmitFrom(cfg, t, now, ids[1..]));
    }
  }

  lemma IdleIsIdle(cfg: Config, s: Sched)
    requires Inv(cfg, s) && s.running <= 0
    ensures s.running == 0 && forall id :: id in s.run.jobs ==> !s.run.jobs[id].status.Running?
  {
    hide ValidRun, Accounts, WithinBudgets, Flown, LiveOK, SavedAgrees;
    Steps.CountersNonNegative(cfg, s, Slots);
    IdleMeansNothingCharged(cfg, s, Slots);
  }

  // Progress: with nothing running, some job queued and every timer expired,
  // the next admission pass launches a job.
  lemma AdmitMakesProgress(cfg: Config, s: Sched, now: int, id: string)
    requires Inv(cfg, s) && s.running == 0 && cfg.containerCap >= 1 && TimersExpired(s, now)
    requires id in s.run.jobs && s.run.jobs[id].status.Queued? && FitsNetworks(cfg, s.run.jobs[id].job)
    ensures AdmitFrom(cfg, s, now, s.run.order).running > 0
  {
    hide Inv, AdmitFrom, Stuck;
    Steps.OrderListsJobs(cfg, s);
    var t := AdmitFrom(cfg, s, now, s.run.order);
    AdmitPasses(cfg, s, now, s.run.order);
    Steps.AdmitKeepsInv(cfg, s, now, s.run.order);
    AdmitConservesWork(cfg, s, now);
    if t.running <= 0 {
      IdleIsIdle(cfg, t);
      IdleNotStuck(cfg, t, now, id);
    }
  }
}
