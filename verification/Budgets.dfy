// Configuration of a run, and the budget arithmetic shared by plan time and
// run time.
module Budgets {
  import opened Names
  import opened Jobs

  datatype Retries = Retries(
    stockout: int, quota: int, timeout: int, infra: int, error: int, failure: int,
    cooldownBase: int)

  datatype Config = Config(
    containerCap: int, safetyFactor: real, networks: int, subnetworks: int,
    regions: map<string, map<string, int>>, retries: Retries)

  // What the configuration checks promise, plus non-negative budgets.
  ghost predicate ValidConfig(cfg: Config) {
    && 0.0 < cfg.safetyFactor <= 1.0
    && cfg.containerCap >= 0 && cfg.networks >= 0 && cfg.subnetworks >= 0
    && (forall r, k :: r in cfg.regions && k in cfg.regions[r] ==> cfg.regions[r][k] >= 0)
    && cfg.retries.stockout >= 1 && cfg.retries.quota >= 1 && cfg.retries.timeout >= 1
    && cfg.retries.infra >= 1 && cfg.retries.error >= 1 && cfg.retries.failure >= 0
    && cfg.retries.cooldownBase > 0
  }

  // The headroom of a region is folded down from this value.
  const MAX_HEADROOM: int := 0x4000_0000

  ghost predicate ValidJob(job: Job) {
    && 0 <= job.cpuCost <= MAX_HEADROOM && job.networks >= 0 && job.subnets >= 0
    && forall z :: z in job.zones ==> ZoneRegion(z) != ""
  }

  // Reading a missing entry of a nested map gives zero.
  function LimitOf(regions: map<string, map<string, int>>, region: string, key: string): int {
    if region in regions && key in regions[region] then regions[region][key] else 0
  }

  // int(x) drops the fraction, rounding towards zero.
  function Truncate(x: real): int {
    if x >= 0.0 then x.Floor else -((-x).Floor)
  }

  function Usable(cfg: Config, region: string, key: string): int {
    Truncate(LimitOf(cfg.regions, region, key) as real * cfg.safetyFactor)
  }

  // CPUS always, plus the job's own key where the region defines it.
  function BudgetKeys(cfg: Config, job: Job, region: string): seq<string> {
    if job.budgetKey != "CPUS" && region in cfg.regions && job.budgetKey in cfg.regions[region]
    then ["CPUS", job.budgetKey]
    else ["CPUS"]
  }

  // The configured budget alone, ignoring occupancy and quota penalties.
  predicate Fits(cfg: Config, job: Job, region: string) {
    forall key :: key in BudgetKeys(cfg, job, region) ==> Usable(cfg, region, key) >= job.cpuCost
  }

  // The zones a sweep of this job has to try.
  function Feasible(cfg: Config, job: Job): set<string> {
    set z | z in job.zones && Fits(cfg, job, ZoneRegion(z))
  }

  lemma UsableWithinLimit(cfg: Config, region: string, key: string)
    requires ValidConfig(cfg)
    ensures 0 <= Usable(cfg, region, key) <= LimitOf(cfg.regions, region, key)
  {
    var limit := LimitOf(cfg.regions, region, key) as real;
    assert 0.0 <= limit * cfg.safetyFactor <= limit;
  }

  // The usable budget is the largest whole number within limit times factor.
  lemma UsableIsFloor(cfg: Config, region: string, key: string)
    requires ValidConfig(cfg)
    requires region in cfg.regions && key in cfg.regions[region]
    ensures var product := cfg.regions[region][key] as real * cfg.safetyFactor;
      Usable(cfg, region, key) as real <= product < (Usable(cfg, region, key) + 1) as real
  {
    UsableWithinLimit(cfg, region, key);
    assert cfg.regions[region][key] as real * cfg.safetyFactor >= 0.0;
  }

  // A job is charged to CPUS everywhere, and to its own key where the region
  // has a limit for it.
  lemma KeysCharged(cfg: Config, job: Job, region: string, key: string)
    ensures key in BudgetKeys(cfg, job, region) <==>
      key == "CPUS" || (key == job.budgetKey && region in cfg.regions && key in cfg.regions[region])
  {
  }

  // A region fits a job exactly when both limits that concern it do.
  lemma FitsBothLimits(cfg: Config, job: Job, region: string)
    ensures Fits(cfg, job, region) <==>
      && job.cpuCost <= Usable(cfg, region, "CPUS")
      && (region in cfg.regions && job.budgetKey in cfg.regions[region] ==>
            job.cpuCost <= Usable(cfg, region, job.budgetKey))
  {
    hide Usable;
    assert "CPUS" in BudgetKeys(cfg, job, region);
    KeysCharged(cfg, job, region, job.budgetKey);
  }
}
