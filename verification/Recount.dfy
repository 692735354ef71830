// The scheduler's counters recounted from the job records alone, family quotas
// included, and what the limits of the configuration mean for the jobs.
module Recount {
  import opened Names
  import opened Jobs
  import opened Budgets
  import opened Spec
  import opened Picking
  import opened Accounting
  import opened Invariants
  import Steps
  import Safety

  // The job's last attempt is open, and in which region.
  predicate Out(rec: Record) {
    |rec.attempts| > 0 && rec.attempts[|rec.attempts| - 1].outcome == Open
  }

  predicate OutIn(rec: Record, region: string) {
    Out(rec) && ZoneRegion(rec.attempts[|rec.attempts| - 1].zone) == region
  }

  // The sum of a part of each record over the listed jobs.
  function Sum(run: RunData, ids: seq<string>, part: Record -> int): int {
    if ids == [] then 0
    else
      var id := ids[|ids| - 1];
      var last := if id in run.jobs then part(run.jobs[id]) else 0;
      Sum(run, ids[..|ids| - 1], part) + last
  }

  function CPUPart(region: string): Record -> int {
    (rec: Record) => if OutIn(rec, region) then rec.job.cpuCost else 0
  }

  function FamilyPart(region: string, key: string): Record -> int {
    (rec: Record) => if OutIn(rec, region) && rec.job.budgetKey == key then rec.job.cpuCost else 0
  }

  function NetworkPart(): Record -> int {
    (rec: Record) => if Out(rec) then rec.job.networks else 0
  }

  function SubnetPart(): Record -> int {
    (rec: Record) => if Out(rec) then rec.job.subnets else 0
  }

  function SlotPart(): Record -> int {
    (rec: Record) => if Out(rec) then 1 else 0
  }

  function ShapePart(shape: string): Record -> int {
    (rec: Record) => if Out(rec) && rec.job.shape == shape then 1 else 0
  }

  lemma TotalStep(cfg: Config, m: Meter, ids: seq<string>, jobs: map<string, Record>)
    requires ids != []
    ensures var n := |ids| - 1;
      Total(cfg, m, ids, jobs)
        == Total(cfg, m, ids[..n], jobs) + (if ids[n] in jobs then Share(cfg, m, jobs[ids[n]]) else 0)
  {
    TotalOfAppended(cfg, m, ids[..|ids| - 1], ids[|ids| - 1], jobs);
    assert ids == ids[..|ids| - 1] + [ids[|ids| - 1]];
  }

  lemma {:induction false} SumIsTotal(cfg: Config, m: Meter, run: RunData, ids: seq<string>, part: Record -> int)
    requires forall rec :: part(rec) == Share(cfg, m, rec)
    ensures Sum(run, ids, part) == Total(cfg, m, ids, run.jobs)
  {
    hide Share, Total;
    if ids == [] {
      NothingTotal(cfg, m, run.jobs);
    } else {
      SumIsTotal(cfg, m, run, ids[..|ids| - 1], part);
      TotalStep(cfg, m, ids, run.jobs);
    }
  }

  lemma NothingTotal(cfg: Config, m: Meter, jobs: map<string, Record>)
    ensures Total(cfg, m, [], jobs) == 0
  {
  }

  lemma CounterIsSum(cfg: Config, s: Sched, m: Meter, part: Record -> int)
    requires Inv(cfg, s) && forall rec :: part(rec) == Share(cfg, m, rec)
    ensures Counter(s, m) == Sum(s.run, s.run.order, part)
  {
    hide ValidRun, WithinBudgets, Flown, LiveOK, SavedAgrees, Share, Total, Counter;
    SumIsTotal(cfg, m, s.run, s.run.order, part);
  }

  // What is in use of a family quota is the sum over the jobs of that family
  // that are out in the region; a key without a limit there is never used.
  lemma FamilyUseIsRecounted(cfg: Config, s: Sched, r: string, k: string)
    requires Inv(cfg, s) && k != "CPUS"
    ensures LimitOf(s.usedCPU, r, k)
      == if r in cfg.regions && k in cfg.regions[r] then Sum(s.run, s.run.order, FamilyPart(r, k)) else 0
  {
    hide Inv;
    if r in cfg.regions && k in cfg.regions[r] {
      FamilyShare(cfg, r, k);
      CounterIsSum(cfg, s, CPU(r, k), FamilyPart(r, k));
    } else {
      NoShare(cfg, r, k);
      CounterIsSum(cfg, s, CPU(r, k), NoPart());
      NothingToSum(s.run, s.run.order);
    }
  }

  function NoPart(): Record -> int {
    (rec: Record) => 0
  }

  lemma {:induction false} NothingToSum(run: RunData, ids: seq<string>)
    ensures Sum(run, ids, NoPart()) == 0
  {
    if ids != [] { NothingToSum(run, ids[..|ids| - 1]); }
  }

  lemma FamilyShare(cfg: Config, r: string, k: string)
    requires k != "CPUS" && r in cfg.regions && k in cfg.regions[r]
    ensures forall rec :: FamilyPart(r, k)(rec) == Share(cfg, CPU(r, k), rec)
  {
    forall rec: Record ensures FamilyPart(r, k)(rec) == Share(cfg, CPU(r, k), rec) {
      KeysCharged(cfg, rec.job, r, k);
    }
  }

  lemma NoShare(cfg: Config, r: string, k: string)
    requires k != "CPUS" && !(r in cfg.regions && k in cfg.regions[r])
    ensures forall rec :: NoPart()(rec) == Share(cfg, CPU(r, k), rec)
  {
    forall rec: Record ensures NoPart()(rec) == Share(cfg, CPU(r, k), rec) {
      KeysCharged(cfg, rec.job, r, k);
    }
  }

  // The same for all other counters.
  lemma UseIsRecounted(cfg: Config, s: Sched, r: string, shape: string)
    requires Inv(cfg, s)
    ensures LimitOf(s.usedCPU, r, "CPUS") == Sum(s.run, s.run.order, CPUPart(r))
    ensures s.usedNets == Sum(s.run, s.run.order, NetworkPart())
    ensures s.usedSubnets == Sum(s.run, s.run.order, SubnetPart())
    ensures s.running == Sum(s.run, s.run.order, SlotPart())
    ensures GetOr(s.perShape, shape, 0) == Sum(s.run, s.run.order, ShapePart(shape))
  {
    hide Inv;
    SharesOf(cfg, r, shape);
    CounterIsSum(cfg, s, CPU(r, "CPUS"), CPUPart(r));
    CounterIsSum(cfg, s, Networks, NetworkPart());
    CounterIsSum(cfg, s, Subnets, SubnetPart());
    CounterIsSum(cfg, s, Slots, SlotPart());
    CounterIsSum(cfg, s, ShapeSlots(shape), ShapePart(shape));
  }

  lemma SharesOf(cfg: Config, r: string, shape: string)
    ensures forall rec :: CPUPart(r)(rec) == Share(cfg, CPU(r, "CPUS"), rec)
    ensures forall rec :: NetworkPart()(rec) == Share(cfg, Networks, rec)
    ensures forall rec :: SubnetPart()(rec) == Share(cfg, Subnets, rec)
    ensures forall rec :: SlotPart()(rec) == Share(cfg, Slots, rec)
    ensures forall rec :: ShapePart(shape)(rec) == Share(cfg, ShapeSlots(shape), rec)
  {
    forall rec: Record ensures CPUPart(r)(rec) == Share(cfg, CPU(r, "CPUS"), rec) {
      KeysCharged(cfg, rec.job, r, "CPUS");
    }
  }

  // Quota safety in the words of the configuration: the jobs out in a region
  // together never cost more than limit times safety factor, neither of its
  // CPUs nor of any family it has a limit for; and networks, subnetworks and
  // containers in use never exceed theirs.
  lemma JobsOutFitTheLimits(cfg: Config, s: Sched, r: string, k: string)
    requires Inv(cfg, s)
    ensures r in cfg.regions && "CPUS" in cfg.regions[r] ==>
      Sum(s.run, s.run.order, CPUPart(r)) as real <= cfg.regions[r]["CPUS"] as real * cfg.safetyFactor
    ensures k != "CPUS" && r in cfg.regions && k in cfg.regions[r] ==>
      Sum(s.run, s.run.order, FamilyPart(r, k)) as real <= cfg.regions[r][k] as real * cfg.safetyFactor
    ensures Sum(s.run, s.run.order, NetworkPart()) <= cfg.networks
    ensures Sum(s.run, s.run.order, SubnetPart()) <= cfg.subnetworks
    ensures Sum(s.run, s.run.order, SlotPart()) <= cfg.containerCap
  {
    hide Inv, Usable, Sum, ValidConfig, CPUPart, FamilyPart, NetworkPart, SubnetPart, SlotPart;
    Steps.ConfigOf(cfg, s);
    Safety.InvKeepsBudgets(cfg, s);
    UseIsRecounted(cfg, s, r, "");
    if r in cfg.regions && "CPUS" in cfg.regions[r] { UsableIsFloor(cfg, r, "CPUS"); }
    if k != "CPUS" && r in cfg.regions && k in cfg.regions[r] {
      FamilyUseIsRecounted(cfg, s, r, k);
      UsableIsFloor(cfg, r, k);
    }
  }
}
