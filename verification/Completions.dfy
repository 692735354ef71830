// Handling a completion keeps the invariants.
module Completions {
  import opened Names
  import opened Jobs
  import opened Budgets
  import opened Spec
  import opened Accounting
  import opened Invariants
  import Steps

  // A completion that can be handled: it is due and its container is gone.
  ghost predicate Due(s: Sched, f: Flight) {
    s.flights[f] > 0 && s.live[f.id] == 0
  }

  lemma DueIsInFlight(s: Sched, f: Flight)
    requires Flown(s) && s.flights[f] > 0
    ensures InFlight(s.run.jobs, f) && s.flights[f] == 1
  {
  }

  // How settling a class changes the record and the cooldowns.
  lemma SettleEffect(cfg: Config, s: Sched, now: int, id: string, zone: string, cls: Class)
    requires id in s.run.jobs
    ensures var t := Settle(cfg, s, now, id, zone, cls);
      && t == s.(run := t.run, hits := t.hits, penalty := t.penalty)
      && id in t.run.jobs
      && t.run.order == s.run.order && t.run.jobs == s.run.jobs[id := t.run.jobs[id]]
      && t.run.jobs[id].job == s.run.jobs[id].job && t.run.jobs[id].attempts == s.run.jobs[id].attempts
      && !t.run.jobs[id].status.Running? && !t.run.jobs[id].status.Quarantined?
      && (forall i :: i != id ==> (StockoutKey(i) in t.run.cooldowns <==> StockoutKey(i) in s.run.cooldowns))
      && (!cls.Stockout? ==>
          t.run.jobs[id] == s.run.jobs[id].(status := t.run.jobs[id].status)
          && (StockoutKey(id) in t.run.cooldowns <==> StockoutKey(id) in s.run.cooldowns))
      && (cls.Stockout? ==> t == s.(run := RecordStockout(cfg, s.run, now, id, zone)))
  {
    hide RequeueOr, BumpCooldown, RecordStockout, ZoneRegion;
    RequeueStatus(s.run.jobs[id].attempts, cls);
    BumpKeepsSweeps(cfg, s, now, QuotaKey(s.run.jobs[id].job.budgetKey, ZoneRegion(zone)));
    StockoutFrame(cfg, s.run, now, id, zone);
  }

  lemma RequeueStatus(attempts: seq<Attempt>, cls: Class)
    ensures forall cap, giveUp :: RequeueOr(attempts, cls, cap, giveUp) in {Queued, giveUp}
  {
    hide CountClass;
  }

  lemma BumpKeepsSweeps(cfg: Config, s: Sched, now: int, key: CooldownKey)
    requires key.QuotaKey?
    ensures var t := BumpCooldown(cfg, s, now, key);
      && t == s.(run := t.run, hits := t.hits)
      && forall i :: StockoutKey(i) in t.run.cooldowns <==> StockoutKey(i) in s.run.cooldowns
  {
    hide Wrap64, Pow2;
  }

  lemma StockoutFrame(cfg: Config, run: RunData, now: int, id: string, zone: string)
    requires id in run.jobs
    ensures var t := RecordStockout(cfg, run, now, id, zone);
      && t.jobs == run.jobs[id := t.jobs[id]]
      && t.jobs[id].job == run.jobs[id].job && t.jobs[id].attempts == run.jobs[id].attempts
      && !t.jobs[id].status.Running? && !t.jobs[id].status.Quarantined?
      && forall i :: i != id ==> (StockoutKey(i) in t.cooldowns <==> StockoutKey(i) in run.cooldowns)
  {
    hide Swept, SweepDelay;
  }

  // After a stockout a zone is left, or the job waits, or it has failed.
  lemma RecordStockoutSweepOK(cfg: Config, run: RunData, now: int, id: string, zone: string)
    requires id in run.jobs && Feasible(cfg, run.jobs[id].job) != {} && run.jobs[id].rounds >= 0
    ensures var t := RecordStockout(cfg, run, now, id, zone);
      && id in t.jobs && t.jobs[id].rounds >= 0
      && SweepOK(cfg, t.cooldowns, id, t.jobs[id])
  {
    hide Fits;
    var rec := run.jobs[id].(swept := run.jobs[id].swept + {zone}, status := Queued);
    if !Swept(cfg, rec) {
      var z :| z in rec.job.zones && Fits(cfg, rec.job, ZoneRegion(z)) && z !in rec.swept;
      assert z in Feasible(cfg, rec.job);
    }
  }

  lemma ChargeFrame(cfg: Config, s: Sched, job: Job, region: string, sign: int)
    ensures var c := Charge(cfg, s, job, region, sign);
      && c.run == s.run && c.saved == s.saved && c.flights == s.flights && c.live == s.live
      && c.penalty == s.penalty && c.hits == s.hits
  {
    hide AddCPU, BudgetKeys;
  }

  // The record a completion leaves behind, and everything else it touches.
  lemma CompleteEffect(cfg: Config, s: Sched, now: int, f: Flight, end: int, cls: Class, killed: bool)
    requires f.id in s.run.jobs && |s.run.jobs[f.id].attempts| > 0
    ensures var t := Complete(cfg, s, now, f, end, cls, killed);
      var rec := s.run.jobs[f.id];
      var c := Charge(cfg, s, rec.job, ZoneRegion(f.zone), -1);
      && f.id in t.run.jobs
      && t.run.order == s.run.order && t.run.jobs == s.run.jobs[f.id := t.run.jobs[f.id]]
      && t.run.jobs[f.id].job == rec.job
      && t.run.jobs[f.id].attempts == CloseAttempt(rec, end, if killed then Aborted else Classified(cls)).attempts
      && !t.run.jobs[f.id].status.Running? && !t.run.jobs[f.id].status.Quarantined?
      && t.saved == t.run && t.live == s.live && t.flights == s.flights - multiset{f}
      && (forall m :: Counter(t, m) == Counter(c, m))
      && (forall i :: i != f.id ==> (StockoutKey(i) in t.run.cooldowns <==> StockoutKey(i) in s.run.cooldowns))
      && (killed || !cls.Stockout? ==>
          t.run.jobs[f.id].swept == rec.swept && t.run.jobs[f.id].rounds == rec.rounds
          && (StockoutKey(f.id) in t.run.cooldowns <==> StockoutKey(f.id) in s.run.cooldowns))
      && (!killed && cls.Stockout? ==>
          var closed := CloseAttempt(rec, end, Classified(cls));
          t.run == RecordStockout(cfg, s.run.(jobs := s.run.jobs[f.id := closed]), now, f.id, f.zone))
  {
    hide Settle, RecordStockout, ZoneRegion, CloseLast, Charge;
    var rec := s.run.jobs[f.id];
    ChargeFrame(cfg, s, rec.job, ZoneRegion(f.zone), -1);
    var s1 := Charge(cfg, s, rec.job, ZoneRegion(f.zone), -1).(flights := s.flights - multiset{f});
    var s2 := SetRecord(s1, f.id, CloseAttempt(rec, end, Classified(cls)));
    SettleEffect(cfg, s2, now, f.id, f.zone, cls);
  }

  lemma CompleteStockoutRun(cfg: Config, s: Sched, now: int, f: Flight, end: int)
    requires f.id in s.run.jobs && |s.run.jobs[f.id].attempts| > 0
    ensures var closed := CloseAttempt(s.run.jobs[f.id], end, Classified(Stockout));
      Complete(cfg, s, now, f, end, Stockout, false).run
      == RecordStockout(cfg, s.run.(jobs := s.run.jobs[f.id := closed]), now, f.id, f.zone)
  {
    hide Complete, RecordStockout;
    CompleteEffect(cfg, s, now, f, end, Stockout, false);
  }

  lemma CompleteOtherRun(cfg: Config, s: Sched, now: int, f: Flight, end: int, cls: Class, killed: bool)
    requires f.id in s.run.jobs && |s.run.jobs[f.id].attempts| > 0 && (killed || !cls.Stockout?)
    ensures var t := Complete(cfg, s, now, f, end, cls, killed);
      var closed := CloseAttempt(s.run.jobs[f.id], end, if killed then Aborted else Classified(cls));
      && f.id in t.run.jobs
      && t.run.jobs[f.id] == closed.(status := t.run.jobs[f.id].status)
      && (StockoutKey(f.id) in t.run.cooldowns <==> StockoutKey(f.id) in s.run.cooldowns)
  {
    hide Complete, RecordStockout, Charge;
    CompleteEffect(cfg, s, now, f, end, cls, killed);
  }

  // The number of attempts of a class at which the job is given up.
  function CapOf(cfg: Config, cls: Class): int
    requires !cls.Pass? && !cls.Stockout?
  {
    match cls
    case Fail => cfg.retries.failure + 1
    case Quota => cfg.retries.quota
    case Timeout => cfg.retries.timeout
    case Infra => cfg.retries.infra
    case Error => cfg.retries.error
  }

  // The status a completion ends in, class by class: a pass passes, a killed
  // run requeues, and any other class requeues exactly below its cap, ending
  // failed_real for a test failure and failed_infra otherwise; a stockout fails
  // the job exactly when it completes the last sweep.
  lemma CompleteStatus(cfg: Config, s: Sched, now: int, f: Flight, end: int, cls: Class, killed: bool)
    requires f.id in s.run.jobs && |s.run.jobs[f.id].attempts| > 0
    ensures var t := Complete(cfg, s, now, f, end, cls, killed);
      var rec := t.run.jobs[f.id];
      && (killed ==> rec.status.Queued?)
      && (!killed && cls.Pass? ==> rec.status.Passed?)
      && (!killed && !cls.Pass? && !cls.Stockout? ==>
          rec.status == if CountClass(rec.attempts, cls) < CapOf(cfg, cls) then Queued
                        else if cls.Fail? then FailedReal else FailedInfra)
      && (!killed && cls.Stockout? ==>
          var before := s.run.jobs[f.id];
          var lastZone := Feasible(cfg, before.job) <= before.swept + {f.zone};
          rec.status == if lastZone && before.rounds + 1 >= cfg.retries.stockout then FailedInfra else Queued)
  {
    hide CountClass, BudgetKeys, AddCPU, RecordStockout, Charge, Pow2, Feasible;
    if cls.Stockout? {
      CompleteStockoutRun(cfg, s, now, f, end);
      var closed := CloseAttempt(s.run.jobs[f.id], end, Classified(Stockout));
      StockoutStatus(cfg, s.run.(jobs := s.run.jobs[f.id := closed]), now, f.id, f.zone);
    }
  }

  lemma StockoutStatus(cfg: Config, run: RunData, now: int, id: string, zone: string)
    requires id in run.jobs
    ensures var rec := run.jobs[id];
      RecordStockout(cfg, run, now, id, zone).jobs[id].status
      == if Feasible(cfg, rec.job) <= rec.swept + {zone} && rec.rounds + 1 >= cfg.retries.stockout
         then FailedInfra else Queued
  {
    hide SweepDelay, Fits;
  }

  // A completion refills every meter by exactly what its launch took.
  lemma CompleteKeepsAccounts(cfg: Config, s: Sched, now: int, f: Flight, end: int, cls: Class, killed: bool)
    requires ValidRun(cfg, s.run) && Accounts(cfg, s) && InFlight(s.run.jobs, f)
    ensures var t := Complete(cfg, s, now, f, end, cls, killed);
      && Accounts(cfg, t)
      && forall m :: Counter(t, m) == Counter(s, m) - Demand(cfg, m, s.run.jobs[f.id].job, ZoneRegion(f.zone))
  {
    hide Complete, Charge, Demand, SweepOK, Counter;
    CompleteEffect(cfg, s, now, f, end, cls, killed);
    var t := Complete(cfg, s, now, f, end, cls, killed);
    var rec := s.run.jobs[f.id];
    forall m
      ensures Counter(t, m) == Total(cfg, m, t.run.order, t.run.jobs)
      ensures Counter(t, m) == Counter(s, m) - Demand(cfg, m, rec.job, ZoneRegion(f.zone))
    {
      ChargeMovesMeters(cfg, s, rec.job, ZoneRegion(f.zone), -1, m);
      TotalUpdate(cfg, m, s.run.order, s.run.jobs, f.id, t.run.jobs[f.id]);
      assert Share(cfg, m, rec) == Demand(cfg, m, rec.job, ZoneRegion(f.zone));
      assert Share(cfg, m, t.run.jobs[f.id]) == 0;
    }
  }

  lemma ClosedNotInFlight(jobs: map<string, Record>, f: Flight, rec: Record, g: Flight)
    requires InFlight(jobs, f) && !IsOpen(rec)
    ensures InFlight(jobs[f.id := rec], g) <==> InFlight(jobs, g) && g != f
  {
  }

  lemma CompleteKeepsFlights(cfg: Config, s: Sched, now: int, f: Flight, end: int, cls: Class, killed: bool)
    requires Flown(s) && LiveOK(s.run.jobs, s.live) && Due(s, f) && InFlight(s.run.jobs, f)
    ensures var t := Complete(cfg, s, now, f, end, cls, killed);
      Flown(t) && LiveOK(t.run.jobs, t.live)
  {
    hide Complete, Charge;
    CompleteEffect(cfg, s, now, f, end, cls, killed);
    var t := Complete(cfg, s, now, f, end, cls, killed);
    assert !IsOpen(t.run.jobs[f.id]);
    hide InFlight, IsOpen;
    forall g ensures t.flights[g] == if InFlight(t.run.jobs, g) then 1 else 0 {
      ClosedNotInFlight(s.run.jobs, f, t.run.jobs[f.id], g);
    }
  }

  lemma CompleteKeepsRun(cfg: Config, s: Sched, now: int, f: Flight, end: int, cls: Class, killed: bool)
    requires ValidRun(cfg, s.run) && InFlight(s.run.jobs, f)
    ensures ValidRun(cfg, Complete(cfg, s, now, f, end, cls, killed).run)
  {
    hide Complete, Charge, Feasible, RecordStockout, ValidRun, Counter;
    var rec := s.run.jobs[f.id];
    RecordOf(cfg, s.run, f.id);
    CompleteEffect(cfg, s, now, f, end, cls, killed);
    if !killed && cls.Stockout? {
      RecordStockoutSweepOK(cfg, s.run.(jobs := s.run.jobs[f.id := CloseAttempt(rec, end, Classified(cls))]), now,
        f.id, f.zone);
    }
    OneRecordKeepsRun(cfg, s.run, Complete(cfg, s, now, f, end, cls, killed).run, f.id);
  }

  lemma CompleteKeepsBudgets(cfg: Config, s: Sched, now: int, f: Flight, end: int, cls: Class, killed: bool)
    requires ValidRun(cfg, s.run) && Accounts(cfg, s) && WithinBudgets(cfg, s) && InFlight(s.run.jobs, f)
    ensures WithinBudgets(cfg, Complete(cfg, s, now, f, end, cls, killed))
  {
    hide Complete, Charge, ValidRun, WithinBudgets, Accounts, SweepOK, Counter, RecordStockout, CloseAttempt;
    RecordOf(cfg, s.run, f.id);
    InFlightHasAttempts(s.run.jobs, f);
    CompleteEffect(cfg, s, now, f, end, cls, killed);
    CompleteKeepsAccounts(cfg, s, now, f, end, cls, killed);
    DemandNonNegative(cfg, s.run.jobs[f.id].job, ZoneRegion(f.zone));
    Steps.SmallerCountersKeepBudgets(cfg, s, Complete(cfg, s, now, f, end, cls, killed));
  }

  lemma CompleteKeepsInv(cfg: Config, s: Sched, now: int, f: Flight, end: int, cls: Class, killed: bool)
    requires Inv(cfg, s) && Due(s, f)
    ensures InFlight(s.run.jobs, f)
    ensures Inv(cfg, Complete(cfg, s, now, f, end, cls, killed))
  {
    hide Complete, ValidRun, Accounts, Flown, LiveOK, WithinBudgets, InFlight, Charge, RecordStockout;
    DueIsInFlight(s, f);
    CompleteKeepsRun(cfg, s, now, f, end, cls, killed);
    CompleteKeepsAccounts(cfg, s, now, f, end, cls, killed);
    CompleteKeepsFlights(cfg, s, now, f, end, cls, killed);
    CompleteKeepsBudgets(cfg, s, now, f, end, cls, killed);
    InFlightHasAttempts(s.run.jobs, f);
    CompleteEffect(cfg, s, now, f, end, cls, killed);
  }

  lemma InFlightHasAttempts(jobs: map<string, Record>, f: Flight)
    requires InFlight(jobs, f)
    ensures f.id in jobs && |jobs[f.id].attempts| > 0
  {
  }
}
