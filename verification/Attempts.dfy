// What launches and completions write into the records, and when a launch may
// happen at all.
module Attempts {
  import opened Names
  import opened Jobs
  import opened Budgets
  import opened Spec
  import opened Accounting
  import opened Invariants
  import Steps
  import opened Picking
  import opened Completions
  import opened Admission
  import opened Runs
  import Termination
  import opened ResumeRecords

  // ----------------------------------------------------------- completions

  function OfClass(attempts: seq<Attempt>, cls: Class): set<nat> {
    set i: nat | i < |attempts| && attempts[i].outcome == Classified(cls)
  }

  lemma {:induction false} CountIsNumber(attempts: seq<Attempt>, cls: Class)
    ensures CountClass(attempts, cls) == |OfClass(attempts, cls)|
  {
    if attempts != [] {
      var n := |attempts| - 1;
      CountIsNumber(attempts[..n], cls);
      if attempts[n].outcome == Classified(cls) {
        assert OfClass(attempts, cls) == OfClass(attempts[..n], cls) + {n};
      } else {
        assert OfClass(attempts, cls) == OfClass(attempts[..n], cls);
      }
    }
  }

  // Queued while the attempts of the class are fewer than the cap.
  function Below(attempts: seq<Attempt>, cls: Class, cap: int, giveUp: Status): Status {
    if |OfClass(attempts, cls)| < cap then Queued else giveUp
  }

  // The attempt is closed with its end and class, in the zone and from the
  // start it was launched with; the class and its count decide the status.
  ghost predicate Completed(cfg: Config, before: Record, after: Record, end: int, cls: Class, killed: bool) {
    && after.job == before.job && SameBefore(before, after)
    && LastOf(after) == LastOf(before).(end := end, outcome := if killed then Aborted else Classified(cls))
    && (killed || !cls.Stockout? ==> after.swept == before.swept && after.rounds == before.rounds)
    && if killed then after.status == Queued
       else match cls
            case Pass => after.status == Passed
            case Fail => after.status == Below(after.attempts, Fail, cfg.retries.failure + 1, FailedReal)
            case Quota => after.status == Below(after.attempts, Quota, cfg.retries.quota, FailedInfra)
            case Timeout => after.status == Below(after.attempts, Timeout, cfg.retries.timeout, FailedInfra)
            case Infra => after.status == Below(after.attempts, Infra, cfg.retries.infra, FailedInfra)
            case Error => after.status == Below(after.attempts, Error, cfg.retries.error, FailedInfra)
            case Stockout =>
              var done := Feasible(cfg, before.job) <= before.swept + {LastOf(before).zone};
              && after.swept == before.swept + {LastOf(before).zone}
              && after.rounds == (if done then before.rounds + 1 else before.rounds)
              && after.status == if done && before.rounds + 1 >= cfg.retries.stockout then FailedInfra else Queued
  }

  // A completion writes this into the record of its job, and nothing into any
  // other.
  lemma CompletionIsRecorded(cfg: Config, s: Sched, now: int, f: Flight, end: int, cls: Class, killed: bool)
    requires f.id in s.run.jobs && InFlight(s.run.jobs, f)
    ensures var t := Complete(cfg, s, now, f, end, cls, killed);
      && t.run.jobs == s.run.jobs[f.id := t.run.jobs[f.id]]
      && Completed(cfg, s.run.jobs[f.id], t.run.jobs[f.id], end, cls, killed)
  {
    hide Complete, Feasible, CountClass, OfClass, RecordStockout;
    var t := Complete(cfg, s, now, f, end, cls, killed);
    CompleteEffect(cfg, s, now, f, end, cls, killed);
    CompleteStatus(cfg, s, now, f, end, cls, killed);
    CountIsNumber(t.run.jobs[f.id].attempts, cls);
    if !killed && cls.Stockout? {
      var closed := CloseAttempt(s.run.jobs[f.id], end, Classified(cls));
      Termination.StockoutOutcome(cfg, s.run.(jobs := s.run.jobs[f.id := closed]), now, f.id, f.zone);
    }
  }

  // --------------------------------------------------------------- launches

  // The job still goes into what the limit leaves, half of it after a recent
  // quota failure.
  ghost predicate Room(cfg: Config, s: Sched, now: int, cost: int, region: string, key: string) {
    var usable := Usable(cfg, region, key);
    LimitOf(s.usedCPU, region, key) + cost
      <= if (key, region) in s.penalty && now < s.penalty[(key, region)] then usable / 2 else usable
  }

  // A zone of the job that the sweep has not ruled out, in a region that is not
  // closed to its family and has room for it. A sweep whose cooldown is over
  // starts anew.
  ghost predicate ZoneOpen(cfg: Config, s: Sched, now: int, id: string, z: string)
    requires id in s.run.jobs
  {
    var rec, region := s.run.jobs[id], ZoneRegion(z);
    var window := QuotaKey(rec.job.budgetKey, region);
    && z in rec.job.zones && (z in rec.swept ==> StockoutKey(id) in s.run.cooldowns)
    && (window in s.run.cooldowns ==> s.run.cooldowns[window] <= now)
    && Room(cfg, s, now, rec.job.cpuCost, region, "CPUS")
    && (region in cfg.regions && rec.job.budgetKey in cfg.regions[region] ==>
          Room(cfg, s, now, rec.job.cpuCost, region, rec.job.budgetKey))
  }

  // The job waits for no sweep, its shape and the networks have room, and so
  // has some zone.
  ghost predicate Startable(cfg: Config, s: Sched, now: int, id: string)
    requires id in s.run.jobs
  {
    var job := s.run.jobs[id].job;
    && (StockoutKey(id) in s.run.cooldowns ==> s.run.cooldowns[StockoutKey(id)] <= now)
    && (job.maxParallel > 0 ==> GetOr(s.perShape, job.shape, 0) < job.maxParallel)
    && s.usedNets + job.networks <= cfg.networks && s.usedSubnets + job.subnets <= cfg.subnetworks
    && exists z :: ZoneOpen(cfg, s, now, id, z)
  }

  lemma RoomIsFree(cfg: Config, s: Sched, now: int, cost: int, region: string, key: string)
    requires ValidConfig(cfg)
    ensures Room(cfg, s, now, cost, region, key) <==> Free(cfg, s, now, region, key) >= cost
  {
    hide Usable, ValidConfig;
    UsableWithinLimit(cfg, region, key);
  }

  lemma AdmissibleIsOpen(cfg: Config, s: Sched, now: int, id: string, z: string)
    requires ValidConfig(cfg) && id in s.run.jobs && s.run.jobs[id].job.cpuCost <= MAX_HEADROOM
    requires !Cooling(s.run.cooldowns, StockoutKey(id), now)
    ensures Admissible(cfg, s, now, Effective(s.run, now, id), z) <==> ZoneOpen(cfg, s, now, id, z)
  {
    hide ValidConfig, Room, Free, BudgetKeys, HeadroomOver, ZoneRegion;
    var job, region := s.run.jobs[id].job, ZoneRegion(z);
    var keys := BudgetKeys(cfg, job, region);
    HeadroomIsLeast(cfg, s, now, region, keys, job.cpuCost);
    forall key
      ensures Room(cfg, s, now, job.cpuCost, region, key) <==> Free(cfg, s, now, region, key) >= job.cpuCost
      ensures key in keys <==>
        key == "CPUS" || (key == job.budgetKey && region in cfg.regions && key in cfg.regions[region])
    {
      RoomIsFree(cfg, s, now, job.cpuCost, region, key);
      KeysCharged(cfg, job, region, key);
    }
  }

  // After a stockout or a quota failure the next launch goes elsewhere.
  ghost predicate Spent(rec: Record) {
    |rec.attempts| > 0 && LastOf(rec).outcome in {Classified(Stockout), Classified(Quota)}
  }

  // A queued job that can start does so, in an open zone that is not the one
  // it was just turned away from unless no other is open; any other job waits.
  ghost predicate TurnTaken(cfg: Config, s: Sched, t: Sched, now: int, id: string)
    requires id in s.run.jobs && id in t.run.jobs
  {
    var before, after := s.run.jobs[id], t.run.jobs[id];
    if before.status == Queued && Startable(cfg, s, now, id) then
      && |after.attempts| == |before.attempts| + 1
      && var zone := LastOf(after).zone;
         && after.attempts == before.attempts + [Attempt(zone, now, 0, Open)] && ZoneOpen(cfg, s, now, id, zone)
         && (Spent(before) && zone == LastOf(before).zone ==>
               forall other :: ZoneOpen(cfg, s, now, id, other) ==> other == zone)
         && after == before.(status := Running, attempts := after.attempts, swept := after.swept)
    else if before.status == Queued then after == before.(swept := after.swept)
    else t == s
  }

  lemma PickedIsOpen(cfg: Config, s: Sched, now: int, id: string, avoid: string)
    requires ValidConfig(cfg) && id in s.run.jobs && ValidJob(s.run.jobs[id].job)
    ensures var z := PickZone(cfg, s, now, id, avoid).0;
      && (z == "" <==>
            Cooling(s.run.cooldowns, StockoutKey(id), now) || !exists other :: ZoneOpen(cfg, s, now, id, other))
      && (z != "" ==> ZoneOpen(cfg, s, now, id, z))
      && (z != "" && z == avoid ==> forall other :: ZoneOpen(cfg, s, now, id, other) ==> other == z)
  {
    hide PickZone, ValidConfig, ZoneOpen, ValidJob, Admissible, Effective;
    PickZoneCompleteAndOptimal(cfg, s, now, id, avoid);
    if !Cooling(s.run.cooldowns, StockoutKey(id), now) {
      CostWithinFold(s.run.jobs[id].job);
      forall z ensures Admissible(cfg, s, now, Effective(s.run, now, id), z) <==> ZoneOpen(cfg, s, now, id, z) {
        AdmissibleIsOpen(cfg, s, now, id, z);
      }
    }
  }

  lemma TurnOfAJob(cfg: Config, s: Sched, now: int, id: string)
    requires Inv(cfg, s) && id in s.run.jobs
    ensures TurnTaken(cfg, s, AdmitOne(cfg, s, now, id), now, id)
  {
    hide PickZone, Launch, Inv, ValidConfig, ZoneOpen, ValidJob, StartSweep;
    Steps.JobsAreValid(cfg, s, id);
    Steps.ConfigOf(cfg, s);
    var avoid := AvoidZone(s.run.jobs[id].attempts);
    PickZoneFrame(cfg, s, now, id, avoid);
    PickedIsOpen(cfg, s, now, id, avoid);
    var (zone, t) := PickZone(cfg, s, now, id, avoid);
    if zone != "" {
      Steps.LaunchEffect(cfg, t, now, id, zone);
    }
  }

  lemma CostWithinFold(job: Job)
    requires ValidJob(job)
    ensures job.cpuCost <= MAX_HEADROOM
  {
  }

  // ------------------------------------------------------------- over a run

  // A job keeps its attempts, or gets one more: in one of its zones, in a
  // region not closed to its family, and not while it waits for a sweep.
  ghost predicate AtMostLaunched(s: Sched, t: Sched, now: int, id: string)
    requires id in s.run.jobs && id in t.run.jobs
  {
    var before, after := s.run.jobs[id], t.run.jobs[id];
    && after.job == before.job
    && if |after.attempts| == |before.attempts| then after.attempts == before.attempts && after.status == before.status
       else
         && before.status == Queued && after.status == Running && |after.attempts| > 0
         && (StockoutKey(id) in s.run.cooldowns ==> s.run.cooldowns[StockoutKey(id)] <= now)
         && var zone := LastOf(after).zone;
            var window := QuotaKey(before.job.budgetKey, ZoneRegion(zone));
            && after.attempts == before.attempts + [Attempt(zone, now, 0, Open)]
            && zone in before.job.zones && (zone in before.swept ==> StockoutKey(id) in s.run.cooldowns)
            && (window in s.run.cooldowns ==> s.run.cooldowns[window] <= now)
  }

  lemma TurnLaunchesAtMost(cfg: Config, s: Sched, now: int, id: string)
    requires Inv(cfg, s) && id in s.run.jobs
    ensures AtMostLaunched(s, AdmitOne(cfg, s, now, id), now, id)
  {
    hide AdmitOne, Inv, Room;
    TurnOfAJob(cfg, s, now, id);
  }

  // Another's turn changes nothing that this job's launch depends on.
  lemma OthersTurn(s: Sched, s': Sched, t: Sched, now: int, turn: string, id: string)
    requires turn in s.run.jobs && AdmitChanges(s, s', turn) && id != turn && id in s.run.jobs
    requires id in t.run.jobs && AtMostLaunched(s', t, now, id)
    ensures AtMostLaunched(s, t, now, id)
  {
    hide Counter;
  }

  lemma {:induction false} PassOnJob(cfg: Config, s: Sched, now: int, ids: seq<string>, id: string)
    requires Inv(cfg, s) && Distinct(ids) && (forall i :: i in ids ==> i in s.run.jobs) && id in s.run.jobs
    ensures AtMostLaunched(s, AdmitFrom(cfg, s, now, ids), now, id)
    ensures id !in ids ==> AdmitFrom(cfg, s, now, ids).run.jobs[id] == s.run.jobs[id]
    decreases |ids|
  {
    hide AdmitOne, AdmitFrom, Inv, AdmitChanges;
    Steps.AdmitFromStep(cfg, s, now, ids);
    if ids != [] && !(s.run.jobs[ids[0]].status == Queued && s.running >= cfg.containerCap) {
      var t := AdmitOne(cfg, s, now, ids[0]);
      Steps.AdmitOneKeepsInv(cfg, s, now, ids[0]);
      PassOnJob(cfg, t, now, ids[1..], id);
      TurnChanges(cfg, s, now, ids[0], id);
      if id == ids[0] {
        TurnLaunchesAtMost(cfg, s, now, id);
        assert id !in ids[1..];
      } else {
        OthersTurn(s, t, AdmitFrom(cfg, s, now, ids), now, ids[0], id);
        assert id !in ids ==> id !in ids[1..];
      }
    }
  }

  lemma TurnChanges(cfg: Config, s: Sched, now: int, turn: string, id: string)
    requires Inv(cfg, s) && turn in s.run.jobs && id in s.run.jobs
    ensures AdmitChanges(s, AdmitOne(cfg, s, now, turn), turn)
    ensures id != turn ==> AdmitOne(cfg, s, now, turn).run.jobs[id] == s.run.jobs[id]
  {
    hide AdmitOne, ValidRun, Accounts, WithinBudgets, Flown, LiveOK, SavedAgrees, Counter;
    AdmitOneChanges(cfg, s, now, turn);
  }

  // Only an admission pass that is neither paused, stopped nor killed launches
  // anything, and it launches a job at most once.
  lemma LaunchesOnlyWhenAdmitting(cfg: Config, w: World, e: Event, id: string)
    requires Inv(cfg, w.s) && Possible(w, e) && id in w.s.run.jobs
    ensures var w' := Next(cfg, w, e);
      && id in w'.s.run.jobs
      && (|w'.s.run.jobs[id].attempts| != |w.s.run.jobs[id].attempts| ==>
            e == Admit(false) && w.admitting && !w.killed && AtMostLaunched(w.s, w'.s, w.now, id))
  {
    hide Inv, AdmitFrom, Complete;
    match e
    case Admit(paused) =>
      if !(paused || !w.admitting || w.killed) {
        Steps.OrderListsJobs(cfg, w.s);
        OrderIsDistinct(cfg, w.s);
        PassOnJob(cfg, w.s, w.now, w.s.run.order, id);
      }
    case Completion(f, end, cls) =>
      CompleteKeepsInv(cfg, w.s, w.now, f, end, cls, w.killed);
      InFlightHasAttempts(w.s.run.jobs, f);
      CompletionIsRecorded(cfg, w.s, w.now, f, end, cls, w.killed);
    case _ =>
  }

  lemma OrderIsDistinct(cfg: Config, s: Sched)
    requires Inv(cfg, s)
    ensures Distinct(s.run.order)
  {
    hide ValidRun, Accounts, WithinBudgets, Flown, LiveOK, SavedAgrees;
    OrderOf(cfg, s.run);
  }

  // Once admission has stopped, or the run was killed, no job is ever launched
  // again.
  lemma {:induction false} NoLaunchAfterTheStop(cfg: Config, w: World, es: seq<Event>, id: string)
    requires Inv(cfg, w.s) && Trace(cfg, w, es) && id in w.s.run.jobs && (!w.admitting || w.killed)
    ensures var w' := After(cfg, w, es);
      id in w'.s.run.jobs && |w'.s.run.jobs[id].attempts| == |w.s.run.jobs[id].attempts|
    decreases |es|
  {
    hide Inv;
    if es != [] {
      LaunchesOnlyWhenAdmitting(cfg, w, es[0], id);
      StaysStopped(cfg, w, es[0]);
      hide Next;
      NoLaunchAfterTheStop(cfg, Next(cfg, w, es[0]), es[1..], id);
    }
  }

  lemma StaysStopped(cfg: Config, w: World, e: Event)
    requires Inv(cfg, w.s) && Possible(w, e) && (!w.admitting || w.killed)
    ensures !Next(cfg, w, e).admitting || Next(cfg, w, e).killed
  {
    hide Inv, AdmitFrom, Complete;
  }

  // ----------------------------------------------------------------- history

  // Attempts only grow, each keeps zone and start, and a closed one stays as
  // it is.
  ghost predicate HistoryKept(before: seq<Attempt>, after: seq<Attempt>) {
    && |before| <= |after|
    && (forall i :: 0 <= i < |before| ==>
          after[i].zone == before[i].zone && after[i].start == before[i].start
          && (!before[i].outcome.Open? ==> after[i] == before[i]))
  }

  lemma NextKeepsHistory(cfg: Config, w: World, e: Event, id: string)
    requires Inv(cfg, w.s) && Possible(w, e) && id in w.s.run.jobs
    ensures var w' := Next(cfg, w, e);
      id in w'.s.run.jobs && HistoryKept(w.s.run.jobs[id].attempts, w'.s.run.jobs[id].attempts)
  {
    hide Inv, AdmitFrom, Complete, Feasible, OfClass;
    match e
    case Admit(paused) =>
      if !(paused || !w.admitting || w.killed) {
        Steps.OrderListsJobs(cfg, w.s);
        OrderIsDistinct(cfg, w.s);
        PassOnJob(cfg, w.s, w.now, w.s.run.order, id);
      }
    case Completion(f, end, cls) =>
      CompleteKeepsInv(cfg, w.s, w.now, f, end, cls, w.killed);
      InFlightHasAttempts(w.s.run.jobs, f);
      CompletionIsRecorded(cfg, w.s, w.now, f, end, cls, w.killed);
    case _ =>
  }

  // What was recorded once is never changed by the run.
  lemma {:induction false} HistoryStays(cfg: Config, w: World, es: seq<Event>, id: string)
    requires Inv(cfg, w.s) && Trace(cfg, w, es) && id in w.s.run.jobs
    ensures var w' := After(cfg, w, es);
      id in w'.s.run.jobs && HistoryKept(w.s.run.jobs[id].attempts, w'.s.run.jobs[id].attempts)
    decreases |es|
  {
    hide Inv, Next;
    if es != [] {
      NextKeepsHistory(cfg, w, es[0], id);
      HistoryStays(cfg, Next(cfg, w, es[0]), es[1..], id);
    }
  }
}
