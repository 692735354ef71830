// The records a run is made of: jobs, attempts, statuses, and the value of a
// saved run state.
module Jobs {
  import opened Names

  datatype Job = Job(
    id: string, config: string, image: string, baseImage: string, shape: string,
    suite: string, family: string, arch: string, cpuCost: int, budgetKey: string,
    series: string, maxParallel: int, networks: int, subnets: int,
    zones: seq<string>, timeout: int, est: int, quarantined: string)

  datatype Status = Queued | Running | Passed | FailedReal | FailedInfra | Quarantined

  // The seven classes an executed container is sorted into.
  datatype Class = Pass | Fail | Stockout | Quota | Timeout | Error | Infra

  // What an attempt's result field can hold.
  datatype Outcome = Open | Classified(cls: Class) | Aborted | Orphaned

  datatype Attempt = Attempt(zone: string, start: int, end: int, outcome: Outcome)

  // rounds counts completed zone sweeps; swept holds the zones that ran out of
  // stock since the last completed one.
  datatype Record = Record(
    job: Job, status: Status, attempts: seq<Attempt>, swept: set<string>, rounds: int)

  // Keys of the cooldown table. LegacyKey is the series|region form written by
  // old versions.
  datatype CooldownKey =
    | StockoutKey(id: string)
    | QuotaKey(budgetKey: string, region: string)
    | LegacyKey(series: string, legacyRegion: string)

  datatype RunData = RunData(
    order: seq<string>, jobs: map<string, Record>, cooldowns: map<CooldownKey, int>)

  function CountClass(attempts: seq<Attempt>, cls: Class): nat {
    if attempts == [] then 0
    else CountClass(attempts[..|attempts| - 1], cls) +
         (if attempts[|attempts| - 1].outcome == Classified(cls) then 1 else 0)
  }

  // The zone of the last stockout or quota attempt, "" when there is none.
  function AvoidZone(attempts: seq<Attempt>): string {
    if attempts == [] then ""
    else
      var last := attempts[|attempts| - 1];
      if last.outcome == Classified(Stockout) || last.outcome == Classified(Quota) then last.zone else ""
  }

  // The last attempt is closed with its end and result.
  function CloseLast(attempts: seq<Attempt>, end: int, outcome: Outcome): seq<Attempt>
    requires |attempts| > 0
  {
    var n := |attempts| - 1;
    attempts[n := attempts[n].(end := end, outcome := outcome)]
  }

  // Closing the open attempt adds it to exactly one class count.
  lemma CountClassOfClosed(attempts: seq<Attempt>, end: int, outcome: Outcome, cls: Class)
    requires |attempts| > 0 && attempts[|attempts| - 1].outcome.Open?
    ensures CountClass(CloseLast(attempts, end, outcome), cls)
            == CountClass(attempts, cls) + (if outcome == Classified(cls) then 1 else 0)
  {
    var n := |attempts| - 1;
    assert CloseLast(attempts, end, outcome)[..n] == attempts[..n];
  }

  lemma CountClassOfOpened(attempts: seq<Attempt>, a: Attempt, cls: Class)
    requires a.outcome.Open?
    ensures CountClass(attempts + [a], cls) == CountClass(attempts, cls)
  {
    assert (attempts + [a])[..|attempts|] == attempts;
  }
}
