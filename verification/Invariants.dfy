// What every reachable scheduler state satisfies.
module Invariants {
  import opened Names
  import opened Jobs
  import opened Budgets
  import opened Spec
  import opened Accounting

  // A job is running exactly when its last attempt is open.
  ghost predicate ValidRecord(id: string, rec: Record) {
    && rec.job.id == id && ValidJob(rec.job) && rec.rounds >= 0
    && (rec.status.Running? <==> IsOpen(rec))
    && forall i :: 0 <= i < |rec.attempts| - 1 ==> !rec.attempts[i].outcome.Open?
  }

  ghost predicate Untried(cfg: Config, rec: Record) {
    exists z :: z in Feasible(cfg, rec.job) && z !in rec.swept
  }

  // A job that no resume will ever queue again.
  predicate Retired(status: Status) {
    status.Passed? || status.Quarantined?
  }

  // A running job sits in a feasible zone its sweep had not ruled out; any job
  // that may still run has such a zone left or is waiting for a new sweep.
  ghost predicate SweepOK(cfg: Config, cooldowns: map<CooldownKey, int>, id: string, rec: Record) {
    && (Retired(rec.status) || Feasible(cfg, rec.job) != {})
    && (rec.status.Running? && rec.attempts != [] ==>
        LastZone(rec) in Feasible(cfg, rec.job) && LastZone(rec) !in rec.swept && StockoutKey(id) !in cooldowns)
    && (rec.status.FailedInfra? || Retired(rec.status) || StockoutKey(id) in cooldowns || Untried(cfg, rec))
  }

  ghost predicate ValidRun(cfg: Config, run: RunData) {
    && Distinct(run.order)
    && (forall id :: id in run.order <==> id in run.jobs)
    && (forall id {:trigger ValidRecord(id, run.jobs[id])} :: id in run.jobs ==> ValidRecord(id, run.jobs[id]))
    && (forall id {:trigger SweepOK(cfg, run.cooldowns, id, run.jobs[id])} ::
          id in run.jobs ==> SweepOK(cfg, run.cooldowns, id, run.jobs[id]))
  }

  lemma RecordOf(cfg: Config, run: RunData, id: string)
    requires ValidRun(cfg, run) && id in run.jobs
    ensures ValidRecord(id, run.jobs[id]) && SweepOK(cfg, run.cooldowns, id, run.jobs[id])
  {
    hide ValidRecord, SweepOK;
  }

  lemma RecordsOf(cfg: Config, run: RunData)
    requires ValidRun(cfg, run)
    ensures forall id :: id in run.jobs ==>
        ValidJob(run.jobs[id].job) && (run.jobs[id].status.Running? <==> IsOpen(run.jobs[id]))
  {
    hide ValidRun, SweepOK;
    forall id | id in run.jobs
      ensures ValidJob(run.jobs[id].job) && (run.jobs[id].status.Running? <==> IsOpen(run.jobs[id]))
    {
      RecordOf(cfg, run, id);
    }
  }

  lemma OrderOf(cfg: Config, run: RunData)
    requires ValidRun(cfg, run)
    ensures Distinct(run.order) && forall id :: id in run.order <==> id in run.jobs
  {
    hide SweepOK, ValidRecord;
  }

  // Changing one record, and no other job's sweep cooldown, keeps a run valid
  // if the new record is.
  lemma OneRecordKeepsRun(cfg: Config, run: RunData, run': RunData, id: string)
    requires ValidRun(cfg, run) && id in run.jobs && id in run'.jobs
    requires run'.order == run.order && run'.jobs == run.jobs[id := run'.jobs[id]]
    requires forall i :: i != id ==> (StockoutKey(i) in run'.cooldowns <==> StockoutKey(i) in run.cooldowns)
    requires ValidRecord(id, run'.jobs[id]) && SweepOK(cfg, run'.cooldowns, id, run'.jobs[id])
    ensures ValidRun(cfg, run')
  {
    hide ValidRecord, Feasible, Untried;
    forall i | i in run'.jobs ensures ValidRecord(i, run'.jobs[i]) && SweepOK(cfg, run'.cooldowns, i, run'.jobs[i]) {
      if i != id {
        assert ValidRecord(i, run.jobs[i]) && SweepOK(cfg, run.cooldowns, i, run.jobs[i]);
      }
    }
  }

  // The snapshot on disk may be behind on sweeps, never on statuses.
  ghost predicate SavedAgrees(s: Sched) {
    && s.saved.order == s.run.order
    && s.saved.jobs.Keys == s.run.jobs.Keys
    && forall id {:trigger s.saved.jobs[id]} :: id in s.run.jobs ==>
         s.saved.jobs[id].job == s.run.jobs[id].job
         && s.saved.jobs[id].status == s.run.jobs[id].status
         && s.saved.jobs[id].attempts == s.run.jobs[id].attempts
  }

  predicate InFlight(jobs: map<string, Record>, f: Flight) {
    && f.id in jobs && IsOpen(jobs[f.id])
    && LastZone(jobs[f.id]) == f.zone
    && jobs[f.id].attempts[|jobs[f.id].attempts| - 1].start == f.start
  }

  // One completion is due per running job and none besides.
  ghost predicate Flown(s: Sched) {
    forall f {:trigger s.flights[f]} :: s.flights[f] == if InFlight(s.run.jobs, f) then 1 else 0
  }

  // Every container belongs to a running job, and no job has two.
  ghost predicate LiveOK(jobs: map<string, Record>, live: multiset<string>) {
    forall id {:trigger live[id]} :: live[id] <= if id in jobs && jobs[id].status.Running? then 1 else 0
  }

  // A positive MaxParallel shared by all jobs of a shape.
  ghost predicate SharedCap(jobs: map<string, Record>, shape: string, cap: int) {
    cap > 0 && forall id :: id in jobs && jobs[id].job.shape == shape ==> jobs[id].job.maxParallel == cap
  }

  ghost predicate WithinBudgets(cfg: Config, s: Sched) {
    && (forall r, k :: LimitOf(s.usedCPU, r, k) <= Usable(cfg, r, k))
    && s.usedNets <= cfg.networks && s.usedSubnets <= cfg.subnetworks
    && s.running <= cfg.containerCap
    && (forall shape, cap :: SharedCap(s.run.jobs, shape, cap) ==> GetOr(s.perShape, shape, 0) <= cap)
  }

  ghost predicate Inv(cfg: Config, s: Sched) {
    && ValidConfig(cfg)
    && ValidRun(cfg, s.run) && ValidRun(cfg, s.saved) && SavedAgrees(s)
    && Accounts(cfg, s) && Flown(s) && LiveOK(s.run.jobs, s.live)
    && WithinBudgets(cfg, s)
  }

  // A scheduler as it is created: nothing charged, nothing in flight.
  function NewSched(run: RunData, live: multiset<string>): Sched {
    Sched(run, run, 0, map[], map[], 0, 0, map[], map[], map[], multiset{}, live)
  }

  lemma {:induction false} TotalOfIdle(cfg: Config, m: Meter, ids: seq<string>, jobs: map<string, Record>)
    requires forall id :: id in jobs ==> !IsOpen(jobs[id])
    ensures Total(cfg, m, ids, jobs) == 0
  {
    if ids != [] {
      TotalOfIdle(cfg, m, ids[1..], jobs);
    }
  }

  lemma NewSchedInv(cfg: Config, run: RunData, live: multiset<string>)
    requires ValidConfig(cfg) && ValidRun(cfg, run)
    requires forall id :: id in run.jobs ==> !run.jobs[id].status.Running?
    requires LiveOK(run.jobs, live)
    ensures Inv(cfg, NewSched(run, live))
  {
    var s := NewSched(run, live);
    RecordsOf(cfg, run);
    forall m ensures Counter(s, m) == Total(cfg, m, run.order, run.jobs) {
      TotalOfIdle(cfg, m, run.order, run.jobs);
    }
    forall r, k ensures LimitOf(s.usedCPU, r, k) <= Usable(cfg, r, k) {
      UsableWithinLimit(cfg, r, k);
    }
  }

  // When no slot is taken no job runs and nothing is charged to any meter.
  lemma IdleMeansNothingCharged(cfg: Config, s: Sched, m: Meter)
    requires ValidRun(cfg, s.run) && Accounts(cfg, s) && s.running == 0
    ensures Counter(s, m) == 0
    ensures forall id :: id in s.run.jobs ==> !s.run.jobs[id].status.Running?
  {
    hide SweepOK, ValidRecord;
    RecordsOf(cfg, s.run);
    assert Counter(s, Slots) == 0;
    forall id | id in s.run.jobs ensures !IsOpen(s.run.jobs[id]) {
      ShareWithinTotal(cfg, Slots, s.run.order, s.run.jobs, id);
    }
    TotalOfIdle(cfg, m, s.run.order, s.run.jobs);
  }
}
