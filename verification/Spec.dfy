// The scheduler as a value and its operations as functions on it. The class
// in Scheduler.dfy is proved to compute these functions; the lemmas of the
// other modules are about them.
module Spec {
  import opened Names
  import opened Jobs
  import opened Budgets

  // A goroutine that will send back exactly one completion.
  datatype Flight = Flight(id: string, zone: string, start: int)

  // run is the run state in memory and saved the snapshot on disk; flights are
  // the executions whose completion is still to come and live the containers
  // that exist.
  datatype Sched = Sched(
    run: RunData, saved: RunData,
    running: int, perShape: map<string, int>, usedCPU: map<string, map<string, int>>,
    usedNets: int, usedSubnets: int,
    hits: map<CooldownKey, nat>, penalty: map<(string, string), int>, zoneRR: map<string, nat>,
    flights: multiset<Flight>, live: multiset<string>)

  const QUOTA_PENALTY: int := 600_000_000_000

  function Pow2(n: nat): (p: int)
    ensures p > 0
  {
    if n == 0 then 1 else 2 * Pow2(n - 1)
  }

  // Durations are 64-bit and wrap around.
  function Wrap64(x: int): int {
    (x + 0x8000_0000_0000_0000) % 0x1_0000_0000_0000_0000 - 0x8000_0000_0000_0000
  }

  function GetOr<K, V>(m: map<K, V>, k: K, default: V): V {
    if k in m then m[k] else default
  }

  function Cooling(cooldowns: map<CooldownKey, int>, key: CooldownKey, now: int): bool {
    key in cooldowns && now < cooldowns[key]
  }

  // ---------------------------------------------------------------- headroom

  // A recent quota failure halves what is allowed for the key in the region.
  function Allowed(cfg: Config, s: Sched, now: int, region: string, key: string): int {
    var a := Usable(cfg, region, key);
    if (key, region) in s.penalty && now < s.penalty[(key, region)]
    then (if a >= 0 then a / 2 else -((-a) / 2))
    else a
  }

  function Free(cfg: Config, s: Sched, now: int, region: string, key: string): int {
    Allowed(cfg, s, now, region, key) - LimitOf(s.usedCPU, region, key)
  }

  function HeadroomOver(cfg: Config, s: Sched, now: int, region: string, keys: seq<string>): int {
    if keys == [] then MAX_HEADROOM
    else
      var h := HeadroomOver(cfg, s, now, region, keys[..|keys| - 1]);
      var free := Free(cfg, s, now, region, keys[|keys| - 1]);
      if free < h then free else h
  }

  function Headroom(cfg: Config, s: Sched, now: int, job: Job, region: string): int {
    HeadroomOver(cfg, s, now, region, BudgetKeys(cfg, job, region))
  }

  // ---------------------------------------------------------------- pickZone

  // An expired sweep cooldown is dropped and a fresh sweep starts.
  function StartSweep(run: RunData, now: int, id: string): (r: RunData)
    requires id in run.jobs
    ensures r.jobs.Keys == run.jobs.Keys && r.order == run.order
  {
    if StockoutKey(id) in run.cooldowns && !Cooling(run.cooldowns, StockoutKey(id), now) then
      run.(cooldowns := run.cooldowns - {StockoutKey(id)},
           jobs := run.jobs[id := run.jobs[id].(swept := {})])
    else run
  }

  // The zones of one pass over a job's zone list, in list order.
  function Candidates(
      run: RunData, now: int, rec: Record, avoid: string, skipLast: bool, zones: seq<string>): seq<string> {
    if zones == [] then []
    else
      var front := Candidates(run, now, rec, avoid, skipLast, zones[..|zones| - 1]);
      var z := zones[|zones| - 1];
      if (skipLast && z == avoid) || z in rec.swept
         || Cooling(run.cooldowns, QuotaKey(rec.job.budgetKey, ZoneRegion(z)), now)
      then front else front + [z]
  }

  // The regions of the candidates, each once, in order of appearance.
  function RegionsOf(zones: seq<string>): seq<string> {
    if zones == [] then []
    else
      var front := RegionsOf(zones[..|zones| - 1]);
      var r := ZoneRegion(zones[|zones| - 1]);
      if r in front then front else front + [r]
  }

  function ZonesIn(zones: seq<string>, region: string): seq<string> {
    if zones == [] then []
    else
      var front := ZonesIn(zones[..|zones| - 1], region);
      var z := zones[|zones| - 1];
      if ZoneRegion(z) == region then front + [z] else front
  }

  // The region with the most headroom among those that can hold the job, the
  // first such in the list; "" and -1 when there is none.
  function BestRegion(cfg: Config, s: Sched, now: int, job: Job, regions: seq<string>): (string, int) {
    if regions == [] then ("", -1)
    else
      var (best, bestFree) := BestRegion(cfg, s, now, job, regions[..|regions| - 1]);
      var r := regions[|regions| - 1];
      var free := Headroom(cfg, s, now, job, r);
      if free >= job.cpuCost && free > bestFree then (r, free) else (best, bestFree)
  }

  // One pass: the chosen zone, or "".
  function ChooseZone(cfg: Config, s: Sched, now: int, rec: Record, avoid: string, skipLast: bool): string {
    var cands := Candidates(s.run, now, rec, avoid, skipLast, rec.job.zones);
    var best := BestRegion(cfg, s, now, rec.job, Sort(RegionsOf(cands))).0;
    var zones := ZonesIn(cands, best);
    if best == "" || zones == [] then ""
    else zones[GetOr(s.zoneRR, best, 0) % |zones|]
  }

  function PickZone(cfg: Config, s: Sched, now: int, id: string, avoid: string): (r: (string, Sched))
    requires id in s.run.jobs
    ensures r.1.run.jobs.Keys == s.run.jobs.Keys && r.1.run.order == s.run.order
  {
    if Cooling(s.run.cooldowns, StockoutKey(id), now) then ("", s)
    else
      var s1 := s.(run := StartSweep(s.run, now, id));
      var rec := s1.run.jobs[id];
      var first := ChooseZone(cfg, s1, now, rec, avoid, true);
      var z := if first != "" then first else ChooseZone(cfg, s1, now, rec, avoid, false);
      if z == "" then ("", s1)
      else
        var r := ZoneRegion(z);
        (z, s1.(zoneRR := s1.zoneRR[r := GetOr(s1.zoneRR, r, 0) + 1]))
  }

  // ------------------------------------------------------------ admit, launch

  function AddCPU(
      used: map<string, map<string, int>>, region: string, keys: seq<string>, amount: int)
      : map<string, map<string, int>> {
    if keys == [] then (if region in used then used else used[region := map[]])
    else
      var u := AddCPU(used, region, keys[..|keys| - 1], amount);
      var key := keys[|keys| - 1];
      var row := GetOr(u, region, map[]);
      u[region := row[key := GetOr(row, key, 0) + amount]]
  }

  function Charge(cfg: Config, s: Sched, job: Job, region: string, sign: int): Sched {
    s.(usedCPU := AddCPU(s.usedCPU, region, BudgetKeys(cfg, job, region), sign * job.cpuCost),
       usedNets := s.usedNets + sign * job.networks,
       usedSubnets := s.usedSubnets + sign * job.subnets,
       running := s.running + sign,
       perShape := s.perShape[job.shape := GetOr(s.perShape, job.shape, 0) + sign])
  }

  function Persist(s: Sched): Sched {
    s.(saved := s.run)
  }

  function OpenAttempt(rec: Record, now: int, zone: string): Record {
    rec.(status := Running, attempts := rec.attempts + [Attempt(zone, now, 0, Open)])
  }

  function Launch(cfg: Config, s: Sched, now: int, id: string, zone: string): (r: Sched)
    requires id in s.run.jobs
    ensures r.run.jobs.Keys == s.run.jobs.Keys && r.run.order == s.run.order
  {
    var rec := s.run.jobs[id];
    var s1 := Charge(cfg, s, rec.job, ZoneRegion(zone), 1);
    Persist(s1.(run := s1.run.(jobs := s1.run.jobs[id := OpenAttempt(rec, now, zone)]),
                flights := s1.flights + multiset{Flight(id, zone, now)},
                live := s1.live + multiset{id}))
  }

  predicate Blocked(cfg: Config, s: Sched, job: Job) {
    || (job.maxParallel > 0 && GetOr(s.perShape, job.shape, 0) >= job.maxParallel)
    || s.usedNets + job.networks > cfg.networks
    || s.usedSubnets + job.subnets > cfg.subnetworks
  }

  // What one turn of the admission loop does with one job.
  function AdmitOne(cfg: Config, s: Sched, now: int, id: string): (r: Sched)
    requires id in s.run.jobs
    ensures r.run.jobs.Keys == s.run.jobs.Keys && r.run.order == s.run.order
  {
    var rec := s.run.jobs[id];
    if rec.status != Queued || Blocked(cfg, s, rec.job) then s
    else
      var (zone, s1) := PickZone(cfg, s, now, id, AvoidZone(rec.attempts));
      if zone == "" then s1 else Launch(cfg, s1, now, id, zone)
  }

  // The admission loop stops for good when a queued job meets the container cap.
  function AdmitFrom(cfg: Config, s: Sched, now: int, ids: seq<string>): (r: Sched)
    requires forall id :: id in ids ==> id in s.run.jobs
    ensures r.run.jobs.Keys == s.run.jobs.Keys
    ensures r.run.order == s.run.order
    decreases |ids|
  {
    if ids == [] then s
    else if s.run.jobs[ids[0]].status == Queued && s.running >= cfg.containerCap then s
    else AdmitFrom(cfg, AdmitOne(cfg, s, now, ids[0]), now, ids[1..])
  }

  // ------------------------------------------------------------- completions

  predicate Swept(cfg: Config, rec: Record) {
    forall z :: z in rec.job.zones && Fits(cfg, rec.job, ZoneRegion(z)) ==> z in rec.swept
  }

  function SweepDelay(cfg: Config, rounds: int): int {
    Wrap64(cfg.retries.cooldownBase * Pow2(if rounds >= 1 then rounds - 1 else 0))
  }

  function RecordStockout(cfg: Config, run: RunData, now: int, id: string, zone: string): (r: RunData)
    requires id in run.jobs
    ensures r.jobs.Keys == run.jobs.Keys && r.order == run.order
  {
    var rec := run.jobs[id].(swept := run.jobs[id].swept + {zone}, status := Queued);
    if !Swept(cfg, rec) then run.(jobs := run.jobs[id := rec])
    else
      var done := rec.(rounds := rec.rounds + 1);
      if done.rounds >= cfg.retries.stockout then
        run.(jobs := run.jobs[id := done.(status := FailedInfra)])
      else
        run.(jobs := run.jobs[id := done],
             cooldowns := run.cooldowns[StockoutKey(id) := now + SweepDelay(cfg, done.rounds)])
  }

  function BumpCooldown(cfg: Config, s: Sched, now: int, key: CooldownKey): (r: Sched)
    ensures r.run.jobs == s.run.jobs && r.run.order == s.run.order
  {
    if Cooling(s.run.cooldowns, key, now) then s
    else
      var count := GetOr(s.hits, key, 0) + 1;
      var hits := if count > 6 then 6 else count;
      s.(hits := s.hits[key := count],
         run := s.run.(cooldowns := s.run.cooldowns[key := now + Wrap64(cfg.retries.cooldownBase * Pow2(hits - 1))]))
  }

  function CloseAttempt(rec: Record, end: int, outcome: Outcome): Record
    requires |rec.attempts| > 0
  {
    rec.(attempts := CloseLast(rec.attempts, end, outcome))
  }

  function RequeueOr(attempts: seq<Attempt>, cls: Class, cap: int, giveUp: Status): Status {
    if CountClass(attempts, cls) >= cap then giveUp else Queued
  }

  function SetRecord(s: Sched, id: string, rec: Record): (r: Sched)
    ensures r.run.jobs.Keys == s.run.jobs.Keys + {id} && r.run.order == s.run.order
  {
    s.(run := s.run.(jobs := s.run.jobs[id := rec]))
  }

  function Settle(cfg: Config, s: Sched, now: int, id: string, zone: string, cls: Class): (r: Sched)
    requires id in s.run.jobs
    ensures r.run.jobs.Keys == s.run.jobs.Keys && r.run.order == s.run.order
  {
    hide SetRecord, BumpCooldown, RecordStockout, RequeueOr;
    var rec := s.run.jobs[id];
    match cls
    case Pass => SetRecord(s, id, rec.(status := Passed))
    case Fail => SetRecord(s, id, rec.(status := RequeueOr(rec.attempts, Fail, cfg.retries.failure + 1, FailedReal)))
    case Stockout => s.(run := RecordStockout(cfg, s.run, now, id, zone))
    case Quota =>
      var region := ZoneRegion(zone);
      var s1 := BumpCooldown(cfg, s, now, QuotaKey(rec.job.budgetKey, region));
      var s2 := s1.(penalty := s1.penalty[(rec.job.budgetKey, region) := now + QUOTA_PENALTY]);
      SetRecord(s2, id, rec.(status := RequeueOr(rec.attempts, Quota, cfg.retries.quota, FailedInfra)))
    case Timeout => SetRecord(s, id, rec.(status := RequeueOr(rec.attempts, Timeout, cfg.retries.timeout, FailedInfra)))
    case Infra => SetRecord(s, id, rec.(status := RequeueOr(rec.attempts, Infra, cfg.retries.infra, FailedInfra)))
    case Error => SetRecord(s, id, rec.(status := RequeueOr(rec.attempts, Error, cfg.retries.error, FailedInfra)))
  }

  // Handling one completion; killed says whether the job context is cancelled.
  function Complete(cfg: Config, s: Sched, now: int, f: Flight, end: int, cls: Class, killed: bool): (r: Sched)
    requires f.id in s.run.jobs && |s.run.jobs[f.id].attempts| > 0
    ensures r.run.jobs.Keys == s.run.jobs.Keys && r.run.order == s.run.order
  {
    var rec := s.run.jobs[f.id];
    var s1 := Charge(cfg, s, rec.job, ZoneRegion(f.zone), -1).(flights := s.flights - multiset{f});
    if killed then
      Persist(SetRecord(s1, f.id, CloseAttempt(rec, end, Aborted).(status := Queued)))
    else
      var s2 := SetRecord(s1, f.id, CloseAttempt(rec, end, Classified(cls)));
      Persist(Settle(cfg, s2, now, f.id, f.zone, cls))
  }
}
