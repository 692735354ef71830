// How often a job can still be launched: a measure every launch uses up.
module Termination {
  import opened Names
  import opened Jobs
  import opened Budgets
  import opened Spec
  import opened Accounting
  import opened Invariants
  import opened Picking
  import Steps
  import opened Admission
  import opened Completions

  // Sweeps left, the current one included; a saved count at or past the cap
  // still gets the one sweep that fails the job.
  function SweepsLeft(cfg: Config, rounds: int): int {
    if rounds >= cfg.retries.stockout then 1 else cfg.retries.stockout - rounds
  }

  // Stockouts until the job fails for lack of stock.
  function StockoutsLeft(cfg: Config, cooldowns: map<CooldownKey, int>, id: string, rec: Record): int {
    var feasible := Feasible(cfg, rec.job);
    SweepsLeft(cfg, rec.rounds) * |feasible|
    - (if StockoutKey(id) in cooldowns then 0 else |rec.swept * feasible|)
  }

  function RetriesLeft(attempts: seq<Attempt>, cls: Class, cap: int): nat {
    var n := CountClass(attempts, cls);
    if n >= cap then 0 else cap - n
  }

  function OtherRetriesLeft(cfg: Config, attempts: seq<Attempt>): nat
    requires ValidConfig(cfg)
  {
    RetriesLeft(attempts, Quota, cfg.retries.quota - 1)
    + RetriesLeft(attempts, Timeout, cfg.retries.timeout - 1)
    + RetriesLeft(attempts, Infra, cfg.retries.infra - 1)
    + RetriesLeft(attempts, Error, cfg.retries.error - 1)
    + RetriesLeft(attempts, Fail, cfg.retries.failure)
  }

  function Left(cfg: Config, cooldowns: map<CooldownKey, int>, id: string, rec: Record): int
    requires ValidConfig(cfg)
  {
    StockoutsLeft(cfg, cooldowns, id, rec) + OtherRetriesLeft(cfg, rec.attempts)
  }

  // Launches a job has left; none once it is settled or the jobs are killed.
  function LaunchesLeft(cfg: Config, run: RunData, id: string, killed: bool): int
    requires ValidConfig(cfg) && id in run.jobs
  {
    match run.jobs[id].status
    case Queued => if killed then 0 else Left(cfg, run.cooldowns, id, run.jobs[id])
    case Running => Left(cfg, run.cooldowns, id, run.jobs[id]) - 1
    case _ => 0
  }

  // Every job's allowance for one run, whatever its history.
  function LaunchBound(cfg: Config, job: Job): int {
    cfg.retries.stockout * |Feasible(cfg, job)| + cfg.retries.quota + cfg.retries.timeout
    + cfg.retries.infra + cfg.retries.error + cfg.retries.failure - 4
  }

  lemma TimesMonotone(a: int, b: int, n: nat)
    requires a <= b
    ensures a * n <= b * n
  {
  }

  lemma SubsetSize<T>(a: set<T>, b: set<T>)
    requires a <= b
    ensures |a| <= |b|
    ensures a != b ==> |a| < |b|
  {
    assert b == a + (b - a);
  }

  lemma LeftWithinBound(cfg: Config, cooldowns: map<CooldownKey, int>, id: string, rec: Record)
    requires ValidConfig(cfg) && rec.rounds >= 0
    ensures Left(cfg, cooldowns, id, rec) <= LaunchBound(cfg, rec.job)
  {
    hide Feasible;
    TimesMonotone(SweepsLeft(cfg, rec.rounds), cfg.retries.stockout, |Feasible(cfg, rec.job)|);
  }

  // A job with a zone left to try, or waiting for a sweep, has a launch left.
  lemma StockoutsLeftPositive(cfg: Config, cooldowns: map<CooldownKey, int>, id: string, rec: Record)
    requires ValidConfig(cfg)
    requires Feasible(cfg, rec.job) != {} && (StockoutKey(id) in cooldowns || Untried(cfg, rec))
    ensures StockoutsLeft(cfg, cooldowns, id, rec) >= 1
  {
    hide Feasible;
    var feasible := Feasible(cfg, rec.job);
    TimesMonotone(1, SweepsLeft(cfg, rec.rounds), |feasible|);
    SubsetSize(rec.swept * feasible, feasible);
    if StockoutKey(id) !in cooldowns {
      var z :| z in feasible && z !in rec.swept;
      assert rec.swept * feasible != feasible;
    } else {
      SubsetSize({}, feasible);
    }
  }

  // A stockout rules out its zone, and completes the sweep exactly when that
  // was the last feasible one.
  lemma StockoutOutcome(cfg: Config, run: RunData, now: int, id: string, zone: string)
    requires id in run.jobs
    ensures var t := RecordStockout(cfg, run, now, id, zone);
      var rec := run.jobs[id];
      var swept := rec.swept + {zone};
      var complete := Feasible(cfg, rec.job) <= swept;
      && t.jobs == run.jobs[id := rec.(swept := swept,
            rounds := if complete then rec.rounds + 1 else rec.rounds,
            status := if complete && rec.rounds + 1 >= cfg.retries.stockout then FailedInfra else Queued)]
      && t.order == run.order
      && t.cooldowns == (if complete && rec.rounds + 1 < cfg.retries.stockout
                         then run.cooldowns[StockoutKey(id) := now + SweepDelay(cfg, rec.rounds + 1)]
                         else run.cooldowns)
  {
    hide SweepDelay, Fits;
  }

  // A stockout uses up exactly one, whether or not it completes the sweep.
  lemma StockoutUsesOne(cfg: Config, run: RunData, now: int, id: string, zone: string)
    requires ValidConfig(cfg) && id in run.jobs && run.jobs[id].rounds >= 0
    requires zone in Feasible(cfg, run.jobs[id].job) && zone !in run.jobs[id].swept && StockoutKey(id) !in run.cooldowns
    ensures var t := RecordStockout(cfg, run, now, id, zone);
      t.jobs[id].status.Queued? ==>
        StockoutsLeft(cfg, t.cooldowns, id, t.jobs[id]) == StockoutsLeft(cfg, run.cooldowns, id, run.jobs[id]) - 1
  {
    hide RecordStockout, Feasible;
    StockoutOutcome(cfg, run, now, id, zone);
    var rec := run.jobs[id];
    var feasible := Feasible(cfg, rec.job);
    var swept := rec.swept + {zone};
    assert swept * feasible == rec.swept * feasible + {zone};
    if feasible <= swept {
      assert swept * feasible == feasible;
      if rec.rounds + 1 < cfg.retries.stockout { OneSweepLess(cfg, rec.rounds, |feasible|); }
    }
  }

  lemma OneSweepLess(cfg: Config, rounds: nat, n: nat)
    requires rounds + 1 < cfg.retries.stockout
    ensures SweepsLeft(cfg, rounds + 1) * n == SweepsLeft(cfg, rounds) * n - n
  {
  }

  lemma RetriesLeftOfClosed(attempts: seq<Attempt>, end: int, outcome: Outcome, cls: Class, cap: int)
    requires |attempts| > 0 && attempts[|attempts| - 1].outcome.Open?
    ensures var closed := CloseLast(attempts, end, outcome);
      RetriesLeft(closed, cls, cap) == RetriesLeft(attempts, cls, cap)
        - (if outcome == Classified(cls) && CountClass(attempts, cls) < cap then 1 else 0)
    ensures CountClass(CloseLast(attempts, end, outcome), cls)
        == CountClass(attempts, cls) + (if outcome == Classified(cls) then 1 else 0)
  {
    hide CountClass;
    CountClassOfClosed(attempts, end, outcome, cls);
  }

  // Closing an attempt leaves the allowance of its own class, if it is
  // requeued, one smaller, and the others as they were.
  lemma ClosingUsesOne(cfg: Config, attempts: seq<Attempt>, end: int, outcome: Outcome)
    requires ValidConfig(cfg)
    requires |attempts| > 0 && attempts[|attempts| - 1].outcome.Open? && !outcome.Open? && outcome != Classified(Pass)
    ensures var closed := CloseLast(attempts, end, outcome);
      if outcome.Classified? && !outcome.cls.Stockout? then
        CountClass(closed, outcome.cls) < CapOf(cfg, outcome.cls) ==>
          OtherRetriesLeft(cfg, closed) == OtherRetriesLeft(cfg, attempts) - 1
      else
        OtherRetriesLeft(cfg, closed) == OtherRetriesLeft(cfg, attempts)
  {
    hide CountClass, RetriesLeft, CloseLast;
    RetriesLeftOfClosed(attempts, end, outcome, Quota, cfg.retries.quota - 1);
    RetriesLeftOfClosed(attempts, end, outcome, Timeout, cfg.retries.timeout - 1);
    RetriesLeftOfClosed(attempts, end, outcome, Infra, cfg.retries.infra - 1);
    RetriesLeftOfClosed(attempts, end, outcome, Error, cfg.retries.error - 1);
    RetriesLeftOfClosed(attempts, end, outcome, Fail, cfg.retries.failure);
  }

  // Opening an attempt uses up no retry.
  lemma OpeningKeepsOthers(cfg: Config, attempts: seq<Attempt>, a: Attempt)
    requires ValidConfig(cfg) && a.outcome.Open?
    ensures OtherRetriesLeft(cfg, attempts + [a]) == OtherRetriesLeft(cfg, attempts)
  {
    hide CountClass;
    forall c { CountClassOfOpened(attempts, a, c); }
  }

  // The same for the record whose open attempt ends in a stockout.
  lemma ClosedStockoutUsesOne(cfg: Config, run: RunData, now: int, id: string, zone: string, end: int)
    requires ValidConfig(cfg) && id in run.jobs && IsOpen(run.jobs[id]) && run.jobs[id].rounds >= 0
    requires zone in Feasible(cfg, run.jobs[id].job) && zone !in run.jobs[id].swept && StockoutKey(id) !in run.cooldowns
    ensures var closed := CloseAttempt(run.jobs[id], end, Classified(Stockout));
      var t := RecordStockout(cfg, run.(jobs := run.jobs[id := closed]), now, id, zone);
      && id in t.jobs
      && (t.jobs[id].status.Queued? ==>
        Left(cfg, t.cooldowns, id, t.jobs[id]) == Left(cfg, run.cooldowns, id, run.jobs[id]) - 1)
  {
    hide RecordStockout, StockoutsLeft, OtherRetriesLeft, Feasible, CloseLast, ValidConfig;
    var rec := run.jobs[id];
    var closed := CloseAttempt(rec, end, Classified(Stockout));
    var closedRun := run.(jobs := run.jobs[id := closed]);
    ClosingUsesOne(cfg, rec.attempts, end, Classified(Stockout));
    StockoutOutcome(cfg, closedRun, now, id, zone);
    StockoutUsesOne(cfg, closedRun, now, id, zone);
    StockoutsLeftFrame(cfg, run.cooldowns, run.cooldowns, id, rec, closed);
  }

  lemma StockoutCompletionUsesOne(cfg: Config, s: Sched, now: int, f: Flight, end: int)
    requires Inv(cfg, s) && InFlight(s.run.jobs, f)
    ensures var t := Complete(cfg, s, now, f, end, Stockout, false);
      && f.id in t.run.jobs
      && (t.run.jobs[f.id].status.Queued? ==>
          Left(cfg, t.run.cooldowns, f.id, t.run.jobs[f.id]) == Left(cfg, s.run.cooldowns, f.id, s.run.jobs[f.id]) - 1)
  {
    RunningRecord(cfg, s, f);
    hide Complete, Inv, InFlight, Left, RecordStockout, Feasible, Untried, CloseAttempt, IsOpen, ValidConfig;
    InFlightHasAttempts(s.run.jobs, f);
    CompleteStockoutRun(cfg, s, now, f, end);
    ClosedStockoutUsesOne(cfg, s.run, now, f.id, f.zone, end);
  }

  lemma ClosedOtherUsesOne(
      cfg: Config, cooldowns: map<CooldownKey, int>, cooldowns': map<CooldownKey, int>, id: string,
      rec: Record, rec': Record, end: int, cls: Class)
    requires ValidConfig(cfg) && IsOpen(rec) && !cls.Pass? && !cls.Stockout?
    requires rec' == CloseAttempt(rec, end, Classified(cls)).(status := rec'.status)
    requires StockoutKey(id) in cooldowns' <==> StockoutKey(id) in cooldowns
    requires CountClass(rec'.attempts, cls) < CapOf(cfg, cls)
    ensures Left(cfg, cooldowns', id, rec') == Left(cfg, cooldowns, id, rec) - 1
  {
    hide StockoutsLeft, OtherRetriesLeft, CountClass, CapOf, CloseLast, ValidConfig;
    ClosingUsesOne(cfg, rec.attempts, end, Classified(cls));
    StockoutsLeftFrame(cfg, cooldowns, cooldowns', id, rec, rec');
  }

  lemma OtherCompletionUsesOne(cfg: Config, s: Sched, now: int, f: Flight, end: int, cls: Class)
    requires Inv(cfg, s) && InFlight(s.run.jobs, f) && !cls.Stockout?
    ensures var t := Complete(cfg, s, now, f, end, cls, false);
      && f.id in t.run.jobs
      && (t.run.jobs[f.id].status.Queued? ==>
          Left(cfg, t.run.cooldowns, f.id, t.run.jobs[f.id]) == Left(cfg, s.run.cooldowns, f.id, s.run.jobs[f.id]) - 1)
  {
    RunningRecord(cfg, s, f);
    hide Complete, Inv, InFlight, Left, CountClass, Feasible, Untried, CapOf, CloseAttempt, IsOpen, ValidConfig;
    InFlightHasAttempts(s.run.jobs, f);
    var t := Complete(cfg, s, now, f, end, cls, false);
    CompleteOtherRun(cfg, s, now, f, end, cls, false);
    CompleteStatus(cfg, s, now, f, end, cls, false);
    if t.run.jobs[f.id].status.Queued? {
      ClosedOtherUsesOne(cfg, s.run.cooldowns, t.run.cooldowns, f.id, s.run.jobs[f.id], t.run.jobs[f.id], end, cls);
    }
  }

  // Handling a completion never adds to what a job has left.
  lemma CompleteUsesLaunch(cfg: Config, s: Sched, now: int, f: Flight, end: int, cls: Class, killed: bool)
    requires Inv(cfg, s) && InFlight(s.run.jobs, f)
    ensures var t := Complete(cfg, s, now, f, end, cls, killed);
      && f.id in t.run.jobs && |t.run.jobs[f.id].attempts| == |s.run.jobs[f.id].attempts|
      && LaunchesLeft(cfg, t.run, f.id, killed) <= LaunchesLeft(cfg, s.run, f.id, killed)
  {
    var rec := s.run.jobs[f.id];
    RunningRecord(cfg, s, f);
    InFlightHasAttempts(s.run.jobs, f);
    assert Left(cfg, s.run.cooldowns, f.id, rec) >= 1 by {
      StockoutsLeftPositive(cfg, s.run.cooldowns, f.id, rec);
    }
    hide Complete, Inv, InFlight, Left, Feasible, Untried, IsOpen, ValidConfig, LaunchesLeft;
    CompleteKeepsLength(cfg, s, now, f, end, cls, killed);
    if !killed {
      if cls.Stockout? {
        StockoutCompletionUsesOne(cfg, s, now, f, end);
      } else {
        OtherCompletionUsesOne(cfg, s, now, f, end, cls);
      }
    }
    LaunchesLeftDrops(cfg, s.run, Complete(cfg, s, now, f, end, cls, killed).run, f.id, killed);
  }

  lemma LaunchesLeftDrops(cfg: Config, run: RunData, run': RunData, id: string, killed: bool)
    requires ValidConfig(cfg) && id in run.jobs && id in run'.jobs
    requires run.jobs[id].status.Running? && !run'.jobs[id].status.Running?
    requires Left(cfg, run.cooldowns, id, run.jobs[id]) >= 1
    requires !killed && run'.jobs[id].status.Queued? ==>
      Left(cfg, run'.cooldowns, id, run'.jobs[id]) == Left(cfg, run.cooldowns, id, run.jobs[id]) - 1
    ensures LaunchesLeft(cfg, run', id, killed) <= LaunchesLeft(cfg, run, id, killed)
  {
    hide Left;
  }

  lemma CompleteKeepsLength(cfg: Config, s: Sched, now: int, f: Flight, end: int, cls: Class, killed: bool)
    requires f.id in s.run.jobs && |s.run.jobs[f.id].attempts| > 0
    ensures var t := Complete(cfg, s, now, f, end, cls, killed);
      && f.id in t.run.jobs && |t.run.jobs[f.id].attempts| == |s.run.jobs[f.id].attempts|
      && !t.run.jobs[f.id].status.Running?
  {
    hide Complete, RecordStockout, Charge, Counter;
    CompleteEffect(cfg, s, now, f, end, cls, killed);
  }

  lemma StockoutsLeftFrame(
      cfg: Config, cooldowns: map<CooldownKey, int>, cooldowns': map<CooldownKey, int>, id: string,
      rec: Record, rec': Record)
    requires rec'.job == rec.job && rec'.swept == rec.swept && rec'.rounds == rec.rounds
    requires StockoutKey(id) in cooldowns <==> StockoutKey(id) in cooldowns'
    ensures StockoutsLeft(cfg, cooldowns', id, rec') == StockoutsLeft(cfg, cooldowns, id, rec)
  {
  }

  lemma RunningRecord(cfg: Config, s: Sched, f: Flight)
    requires Inv(cfg, s) && InFlight(s.run.jobs, f)
    ensures var rec := s.run.jobs[f.id];
      && ValidConfig(cfg) && rec.status.Running? && IsOpen(rec) && rec.rounds >= 0
      && f.zone in Feasible(cfg, rec.job) && f.zone !in rec.swept && StockoutKey(f.id) !in s.run.cooldowns
      && Feasible(cfg, rec.job) != {} && Untried(cfg, rec)
  {
    hide Accounts, WithinBudgets, Flown, LiveOK, SavedAgrees, Feasible;
    var rec := s.run.jobs[f.id];
    assert ValidRecord(f.id, rec) && SweepOK(cfg, s.run.cooldowns, f.id, rec);
  }

  // Dropping an expired cooldown and starting a sweep leaves as much.
  lemma StartSweepKeepsLeft(cfg: Config, run: RunData, now: int, id: string)
    requires ValidConfig(cfg) && id in run.jobs
    ensures var t := StartSweep(run, now, id);
      Left(cfg, t.cooldowns, id, t.jobs[id]) == Left(cfg, run.cooldowns, id, run.jobs[id])
  {
    hide OtherRetriesLeft, Feasible, ValidConfig;
    assert {} * Feasible(cfg, run.jobs[id].job) == {};
  }

  lemma OpeningKeepsLeft(cfg: Config, cooldowns: map<CooldownKey, int>, id: string, rec: Record, now: int, zone: string)
    requires ValidConfig(cfg)
    ensures Left(cfg, cooldowns, id, OpenAttempt(rec, now, zone)) == Left(cfg, cooldowns, id, rec)
  {
    hide OtherRetriesLeft, ValidConfig;
    OpeningKeepsOthers(cfg, rec.attempts, Attempt(zone, now, 0, Open));
  }

  // A turn of the admission loop uses up one launch exactly when it launches.
  lemma AdmitOneUsesLaunch(cfg: Config, s: Sched, now: int, id: string)
    requires ValidConfig(cfg) && id in s.run.jobs
    ensures var t := AdmitOne(cfg, s, now, id);
      id in t.run.jobs && |t.run.jobs[id].attempts| + LaunchesLeft(cfg, t.run, id, false)
      == |s.run.jobs[id].attempts| + LaunchesLeft(cfg, s.run, id, false)
  {
    hide Blocked, PickZone, Launch, Left, ValidConfig, StartSweep;
    var rec := s.run.jobs[id];
    var avoid := AvoidZone(rec.attempts);
    var (zone, t) := PickZone(cfg, s, now, id, avoid);
    PickZoneFrame(cfg, s, now, id, avoid);
    StartSweepKeepsLeft(cfg, s.run, now, id);
    if rec.status.Queued? && !Blocked(cfg, s, rec.job) && zone != "" {
      Steps.LaunchEffect(cfg, t, now, id, zone);
      OpeningKeepsLeft(cfg, t.run.cooldowns, id, t.run.jobs[id], now, zone);
    }
  }
}
