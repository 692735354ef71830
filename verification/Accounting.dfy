// The scheduler's incremental counters against a recomputation from the job
// records.
module Accounting {
  import opened Names
  import opened Jobs
  import opened Budgets
  import opened Spec

  // Everything the scheduler counts.
  datatype Meter = CPU(region: string, key: string) | Networks | Subnets | Slots | ShapeSlots(shape: string)

  function Counter(s: Sched, m: Meter): int {
    match m
    case CPU(r, k) => LimitOf(s.usedCPU, r, k)
    case Networks => s.usedNets
    case Subnets => s.usedSubnets
    case Slots => s.running
    case ShapeSlots(sh) => GetOr(s.perShape, sh, 0)
  }

  // What one running job adds to a meter.
  function Demand(cfg: Config, m: Meter, job: Job, region: string): int {
    match m
    case CPU(r, k) => if r == region && k in BudgetKeys(cfg, job, region) then job.cpuCost else 0
    case Networks => job.networks
    case Subnets => job.subnets
    case Slots => 1
    case ShapeSlots(sh) => if job.shape == sh then 1 else 0
  }

  lemma DemandNonNegative(cfg: Config, job: Job, region: string)
    requires ValidJob(job)
    ensures forall m :: Demand(cfg, m, job, region) >= 0
  {
  }

  predicate IsOpen(rec: Record) {
    rec.attempts != [] && rec.attempts[|rec.attempts| - 1].outcome.Open?
  }

  function LastZone(rec: Record): string
    requires rec.attempts != []
  {
    rec.attempts[|rec.attempts| - 1].zone
  }

  // A record's share of a meter, read off its last attempt alone.
  function Share(cfg: Config, m: Meter, rec: Record): int {
    if IsOpen(rec) then Demand(cfg, m, rec.job, ZoneRegion(LastZone(rec))) else 0
  }

  function Total(cfg: Config, m: Meter, ids: seq<string>, jobs: map<string, Record>): int {
    if ids == [] then 0
    else Total(cfg, m, ids[1..], jobs) + (if ids[0] in jobs then Share(cfg, m, jobs[ids[0]]) else 0)
  }

  // The counters agree with the recomputation.
  ghost predicate Accounts(cfg: Config, s: Sched) {
    forall m :: Counter(s, m) == Total(cfg, m, s.run.order, s.run.jobs)
  }

  // Changing a record outside the list changes nothing; inside, only its share.
  lemma {:induction false} TotalUpdate(
      cfg: Config, m: Meter, ids: seq<string>, jobs: map<string, Record>, id: string, rec: Record)
    requires Distinct(ids) && id in jobs
    ensures Total(cfg, m, ids, jobs[id := rec])
            == Total(cfg, m, ids, jobs) + (if id in ids then Share(cfg, m, rec) - Share(cfg, m, jobs[id]) else 0)
  {
    hide Share;
    if ids != [] {
      TotalUpdate(cfg, m, ids[1..], jobs, id, rec);
      assert ids == [ids[0]] + ids[1..];
    }
  }

  lemma {:induction false} TotalOfAppended(
      cfg: Config, m: Meter, ids: seq<string>, id: string, jobs: map<string, Record>)
    ensures Total(cfg, m, ids + [id], jobs) == Total(cfg, m, ids, jobs)
        + (if id in jobs then Share(cfg, m, jobs[id]) else 0)
  {
    if ids != [] {
      assert (ids + [id])[1..] == ids[1..] + [id];
      TotalOfAppended(cfg, m, ids[1..], id, jobs);
    } else {
      assert ([id])[1..] == [];
    }
  }

  lemma {:induction false} TotalNonNegative(cfg: Config, m: Meter, ids: seq<string>, jobs: map<string, Record>)
    requires forall id :: id in jobs ==> ValidJob(jobs[id].job)
    ensures Total(cfg, m, ids, jobs) >= 0
  {
    if ids != [] {
      TotalNonNegative(cfg, m, ids[1..], jobs);
    }
  }

  // A job's share is part of the total.
  lemma {:induction false} ShareWithinTotal(
      cfg: Config, m: Meter, ids: seq<string>, jobs: map<string, Record>, id: string)
    requires forall i :: i in jobs ==> ValidJob(jobs[i].job)
    requires id in ids && id in jobs
    ensures Share(cfg, m, jobs[id]) <= Total(cfg, m, ids, jobs)
  {
    if ids[0] == id {
      TotalNonNegative(cfg, m, ids[1..], jobs);
    } else {
      assert ids == [ids[0]] + ids[1..];
      ShareWithinTotal(cfg, m, ids[1..], jobs, id);
    }
  }

  lemma {:induction false} AddCPUAt(
      used: map<string, map<string, int>>, region: string, keys: seq<string>, amount: int, r: string,
      k: string)
    requires Distinct(keys)
    ensures LimitOf(AddCPU(used, region, keys, amount), r, k)
      == LimitOf(used, r, k) + (if r == region && k in keys then amount else 0)
    ensures region in AddCPU(used, region, keys, amount)
  {
    if keys != [] {
      var n := |keys| - 1;
      AddCPUAt(used, region, keys[..n], amount, r, k);
      assert k in keys <==> k in keys[..n] || k == keys[n];
      assert keys[n] !in keys[..n];
    }
  }

  // charge moves every meter by the job's demand.
  lemma ChargeMovesMeters(cfg: Config, s: Sched, job: Job, region: string, sign: int, m: Meter)
    requires sign == 1 || sign == -1
    ensures Counter(Charge(cfg, s, job, region, sign), m) == Counter(s, m) + sign * Demand(cfg, m, job, region)
  {
    if m.CPU? {
      AddCPUAt(s.usedCPU, region, BudgetKeys(cfg, job, region), sign * job.cpuCost, m.region, m.key);
    }
  }
}
