// The exact ledger of a job's zone sweeps, and the back-off it is given.
module Sweeps {
  import opened Names
  import opened Jobs
  import opened Budgets
  import opened Spec
  import opened Picking
  import opened Accounting
  import opened Invariants
  import Steps
  import opened Completions
  import opened Admission
  import opened Termination
  import opened Runs

  // The zones a job ran out of stock in, in order.
  function StockZones(attempts: seq<Attempt>): (zones: seq<string>)
    ensures |zones| == CountClass(attempts, Stockout)
  {
    if attempts == [] then []
    else
      var front := StockZones(attempts[..|attempts| - 1]);
      var last := attempts[|attempts| - 1];
      if last.outcome == Classified(Stockout) then front + [last.zone] else front
  }

  function SetOf(zones: seq<string>): set<string> {
    set z | z in zones
  }

  // The n zones from position k*n on are the feasible ones, each once.
  ghost predicate Block(zones: seq<string>, feasible: set<string>, k: nat) {
    var n := |feasible|;
    (k + 1) * n <= |zones| && SetOf(zones[k * n..(k + 1) * n]) == feasible
  }

  ghost predicate GaveUpOtherwise(attempts: seq<Attempt>) {
    exists a :: a in attempts && a.outcome.Classified? && a.outcome.cls in {Quota, Timeout, Infra, Error}
  }

  // Stockouts come in completed sweeps, each of which tried every feasible zone
  // once, followed by the zones of the current sweep; while the job waits for a
  // new sweep, or has failed for lack of stock, they come in whole sweeps.
  ghost predicate Tally(
      feasible: set<string>, cap: int, waiting: bool, rounds: int, swept: set<string>, zones: seq<string>) {
    var n := |feasible|;
    && 0 <= rounds <= cap && swept <= feasible && rounds * n <= |zones|
    && (forall k :: 0 <= k < rounds ==> Block(zones, feasible, k))
    && (waiting || rounds == cap ==> swept == feasible && |zones| == rounds * n)
    && (!waiting && rounds < cap ==> |zones| == rounds * n + |swept| && SetOf(zones[rounds * n..]) == swept)
  }

  ghost predicate Ledger(cfg: Config, cooldowns: map<CooldownKey, int>, id: string, rec: Record) {
    && Tally(Feasible(cfg, rec.job), cfg.retries.stockout, StockoutKey(id) in cooldowns, rec.rounds, rec.swept,
      StockZones(rec.attempts))
    && (rec.rounds == cfg.retries.stockout ==> rec.status.FailedInfra? && StockoutKey(id) !in cooldowns)
    && (rec.status.FailedInfra? ==> rec.rounds == cfg.retries.stockout || GaveUpOtherwise(rec.attempts))
  }

  ghost predicate Fresh(cooldowns: map<CooldownKey, int>, id: string, rec: Record) {
    rec.attempts == [] && rec.swept == {} && rec.rounds == 0 && StockoutKey(id) !in cooldowns
      && !rec.status.FailedInfra?
  }

  lemma FreshLedger(cfg: Config, cooldowns: map<CooldownKey, int>, id: string, rec: Record)
    requires ValidConfig(cfg) && Fresh(cooldowns, id, rec)
    ensures Ledger(cfg, cooldowns, id, rec)
  {
    hide Feasible;
  }

  lemma StockZonesOfOpened(attempts: seq<Attempt>, a: Attempt)
    requires a.outcome.Open?
    ensures StockZones(attempts + [a]) == StockZones(attempts)
  {
    assert (attempts + [a])[..|attempts|] == attempts;
  }

  lemma StockZonesOfClosed(attempts: seq<Attempt>, end: int, outcome: Outcome)
    requires |attempts| > 0 && attempts[|attempts| - 1].outcome.Open?
    ensures StockZones(CloseLast(attempts, end, outcome))
      == StockZones(attempts) + (if outcome == Classified(Stockout) then [attempts[|attempts| - 1].zone] else [])
  {
    var n := |attempts| - 1;
    assert CloseLast(attempts, end, outcome)[..n] == attempts[..n];
  }

  lemma BlockOfLonger(zones: seq<string>, more: seq<string>, feasible: set<string>, k: nat)
    requires Block(zones, feasible, k)
    ensures Block(zones + more, feasible, k)
  {
    var n := |feasible|;
    assert k * n <= (k + 1) * n;
    assert (zones + more)[k * n..(k + 1) * n] == zones[k * n..(k + 1) * n];
  }

  // One more stockout, in a zone the sweep had not tried.
  lemma TallyStockout(
      feasible: set<string>, cap: int, rounds: int, swept: set<string>, zones: seq<string>, zone: string)
    requires Tally(feasible, cap, false, rounds, swept, zones) && rounds < cap
    requires zone in feasible && zone !in swept
    ensures feasible <= swept + {zone} ==>
      Tally(feasible, cap, rounds + 1 < cap, rounds + 1, swept + {zone}, zones + [zone])
    ensures !(feasible <= swept + {zone}) ==>
      Tally(feasible, cap, false, rounds, swept + {zone}, zones + [zone])
  {
    var n := |feasible|;
    var zones' := zones + [zone];
    assert zones'[rounds * n..] == zones[rounds * n..] + [zone];
    forall k | 0 <= k < rounds ensures Block(zones', feasible, k) {
      BlockOfLonger(zones, [zone], feasible, k);
    }
    assert SetOf(zones'[rounds * n..]) == swept + {zone};
    if feasible <= swept + {zone} {
      assert swept + {zone} == feasible;
      assert (rounds + 1) * n == |zones'|;
      assert zones'[rounds * n..(rounds + 1) * n] == zones'[rounds * n..];
      assert Block(zones', feasible, rounds);
    }
  }

  lemma StockoutKeepsLedger(cfg: Config, run: RunData, now: int, id: string, zone: string, end: int)
    requires ValidConfig(cfg) && id in run.jobs && run.jobs[id].status.Running? && IsOpen(run.jobs[id])
    requires LastZone(run.jobs[id]) == zone && zone in Feasible(cfg, run.jobs[id].job) && zone !in run.jobs[id].swept
    requires StockoutKey(id) !in run.cooldowns && Ledger(cfg, run.cooldowns, id, run.jobs[id])
    ensures var closed := CloseAttempt(run.jobs[id], end, Classified(Stockout));
      var t := RecordStockout(cfg, run.(jobs := run.jobs[id := closed]), now, id, zone);
      id in t.jobs && Ledger(cfg, t.cooldowns, id, t.jobs[id])
  {
    hide RecordStockout, Feasible, CloseLast, StockZones, SweepDelay, Tally;
    var rec := run.jobs[id];
    var closed := CloseAttempt(rec, end, Classified(Stockout));
    StockoutOutcome(cfg, run.(jobs := run.jobs[id := closed]), now, id, zone);
    StockZonesOfClosed(rec.attempts, end, Classified(Stockout));
    assert rec.rounds < cfg.retries.stockout by { TallyBounds(cfg, run.cooldowns, id, rec); }
    TallyStockout(Feasible(cfg, rec.job), cfg.retries.stockout, rec.rounds, rec.swept, StockZones(rec.attempts), zone);
  }

  lemma TallyBounds(cfg: Config, cooldowns: map<CooldownKey, int>, id: string, rec: Record)
    requires Ledger(cfg, cooldowns, id, rec) && !rec.status.FailedInfra?
    ensures 0 <= rec.rounds < cfg.retries.stockout
  {
    hide Block, SetOf, Feasible;
  }

  // Any other end of an attempt keeps the ledger.
  lemma OtherKeepsLedger(
      cfg: Config, cooldowns: map<CooldownKey, int>, cooldowns': map<CooldownKey, int>, id: string,
      rec: Record, rec': Record, end: int, outcome: Outcome)
    requires Ledger(cfg, cooldowns, id, rec) && IsOpen(rec) && !rec.status.FailedInfra?
    requires outcome != Classified(Stockout)
    requires rec' == CloseAttempt(rec, end, outcome).(status := rec'.status)
    requires StockoutKey(id) in cooldowns' <==> StockoutKey(id) in cooldowns
    requires rec'.status.FailedInfra? ==> outcome.Classified? && outcome.cls in {Quota, Timeout, Infra, Error}
    ensures Ledger(cfg, cooldowns', id, rec')
  {
    hide Feasible, StockZones, Tally;
    TallyBounds(cfg, cooldowns, id, rec);
    StockZonesOfClosed(rec.attempts, end, outcome);
    assert StockZones(rec.attempts) + [] == StockZones(rec.attempts);
    if rec'.status.FailedInfra? {
      var last := rec'.attempts[|rec'.attempts| - 1];
      assert last in rec'.attempts && last.outcome == outcome;
    }
  }

  lemma StartSweepKeepsLedger(cfg: Config, run: RunData, now: int, id: string)
    requires id in run.jobs && Ledger(cfg, run.cooldowns, id, run.jobs[id])
    ensures var t := StartSweep(run, now, id); Ledger(cfg, t.cooldowns, id, t.jobs[id])
  {
    hide Feasible, StockZones, Block;
  }

  lemma OpeningKeepsLedger(
      cfg: Config, cooldowns: map<CooldownKey, int>, id: string, rec: Record, now: int, zone: string)
    requires Ledger(cfg, cooldowns, id, rec) && rec.status.Queued?
    ensures Ledger(cfg, cooldowns, id, OpenAttempt(rec, now, zone))
  {
    hide Feasible, StockZones, Tally;
    TallyBounds(cfg, cooldowns, id, rec);
    StockZonesOfOpened(rec.attempts, Attempt(zone, now, 0, Open));
  }

  lemma AdmitOneKeepsLedger(cfg: Config, s: Sched, now: int, id: string)
    requires id in s.run.jobs && Ledger(cfg, s.run.cooldowns, id, s.run.jobs[id])
    ensures var t := AdmitOne(cfg, s, now, id).run; Ledger(cfg, t.cooldowns, id, t.jobs[id])
  {
    hide Blocked, PickZone, Launch, Ledger, StartSweep;
    var rec := s.run.jobs[id];
    var avoid := AvoidZone(rec.attempts);
    var (zone, t) := PickZone(cfg, s, now, id, avoid);
    PickZoneFrame(cfg, s, now, id, avoid);
    StartSweepKeepsLedger(cfg, s.run, now, id);
    if rec.status.Queued? && !Blocked(cfg, s, rec.job) && zone != "" {
      Steps.LaunchEffect(cfg, t, now, id, zone);
      OpeningKeepsLedger(cfg, t.run.cooldowns, id, t.run.jobs[id], now, zone);
    }
  }

  lemma CompleteKeepsLedger(cfg: Config, s: Sched, now: int, f: Flight, end: int, cls: Class, killed: bool)
    requires Inv(cfg, s) && InFlight(s.run.jobs, f) && Ledger(cfg, s.run.cooldowns, f.id, s.run.jobs[f.id])
    ensures var t := Complete(cfg, s, now, f, end, cls, killed).run;
      f.id in t.jobs && Ledger(cfg, t.cooldowns, f.id, t.jobs[f.id])
  {
    var rec := s.run.jobs[f.id];
    RunningRecord(cfg, s, f);
    hide Complete, Inv, Ledger, RecordStockout, Feasible, Untried, CountClass, CapOf, CloseAttempt, ValidConfig;
    InFlightHasAttempts(s.run.jobs, f);
    if !killed && cls.Stockout? {
      CompleteStockoutRun(cfg, s, now, f, end);
      StockoutKeepsLedger(cfg, s.run, now, f.id, f.zone, end);
    } else {
      CompleteOtherRun(cfg, s, now, f, end, cls, killed);
      CompleteStatus(cfg, s, now, f, end, cls, killed);
      var t := Complete(cfg, s, now, f, end, cls, killed).run;
      OtherKeepsLedger(cfg, s.run.cooldowns, t.cooldowns, f.id, rec, t.jobs[f.id], end,
        if killed then Aborted else Classified(cls));
    }
  }

  // --------------------------------------------------------- along a whole run

  lemma {:induction false} AdmitKeepsLedger(cfg: Config, s: Sched, now: int, ids: seq<string>, id: string)
    requires Inv(cfg, s) && forall i :: i in ids ==> i in s.run.jobs
    requires id in s.run.jobs && Ledger(cfg, s.run.cooldowns, id, s.run.jobs[id])
    ensures var t := AdmitFrom(cfg, s, now, ids).run; Ledger(cfg, t.cooldowns, id, t.jobs[id])
    decreases |ids|
  {
    hide AdmitOne, Inv, AdmitFrom, Ledger;
    Steps.AdmitFromStep(cfg, s, now, ids);
    if ids != [] && !(s.run.jobs[ids[0]].status == Queued && s.running >= cfg.containerCap) {
      var t := AdmitOne(cfg, s, now, ids[0]);
      AdmitOneOnLedger(cfg, s, now, ids[0], id);
      Steps.AdmitOneKeepsInv(cfg, s, now, ids[0]);
      AdmitKeepsLedger(cfg, t, now, ids[1..], id);
    }
  }

  lemma AdmitOneOnLedger(cfg: Config, s: Sched, now: int, turn: string, id: string)
    requires Inv(cfg, s) && turn in s.run.jobs && id in s.run.jobs && Ledger(cfg, s.run.cooldowns, id, s.run.jobs[id])
    ensures var t := AdmitOne(cfg, s, now, turn).run; Ledger(cfg, t.cooldowns, id, t.jobs[id])
  {
    hide AdmitOne, ValidRun, Accounts, Counter, WithinBudgets, Flown, LiveOK, SavedAgrees, Ledger;
    AdmitOneChanges(cfg, s, now, turn);
    if id == turn {
      AdmitOneKeepsLedger(cfg, s, now, id);
    } else {
      SameJobKeepsLedger(cfg, s, AdmitOne(cfg, s, now, turn), id);
    }
  }

  lemma SameJobKeepsLedger(cfg: Config, s: Sched, t: Sched, id: string)
    requires SameJob(s, t, id) && Ledger(cfg, s.run.cooldowns, id, s.run.jobs[id])
    ensures Ledger(cfg, t.run.cooldowns, id, t.run.jobs[id])
  {
  }

  lemma CompletionOnLedger(cfg: Config, s: Sched, now: int, f: Flight, end: int, cls: Class, killed: bool, id: string)
    requires Inv(cfg, s) && InFlight(s.run.jobs, f) && id in s.run.jobs
    requires Ledger(cfg, s.run.cooldowns, id, s.run.jobs[id])
    ensures var t := Complete(cfg, s, now, f, end, cls, killed).run;
      id in t.jobs && Ledger(cfg, t.cooldowns, id, t.jobs[id])
  {
    InFlightHasAttempts(s.run.jobs, f);
    hide Complete, Inv, Ledger, InFlight;
    if id == f.id {
      CompleteKeepsLedger(cfg, s, now, f, end, cls, killed);
    } else {
      CompleteOthers(cfg, s, now, f, end, cls, killed, id);
      SameJobKeepsLedger(cfg, s, Complete(cfg, s, now, f, end, cls, killed), id);
    }
  }

  lemma CompleteOthers(cfg: Config, s: Sched, now: int, f: Flight, end: int, cls: Class, killed: bool, id: string)
    requires f.id in s.run.jobs && |s.run.jobs[f.id].attempts| > 0 && id in s.run.jobs && id != f.id
    ensures SameJob(s, Complete(cfg, s, now, f, end, cls, killed), id)
  {
    hide Complete, RecordStockout, Charge, Counter, CloseAttempt;
    CompleteEffect(cfg, s, now, f, end, cls, killed);
  }

  lemma NextKeepsLedger(cfg: Config, w: World, e: Event, id: string)
    requires Inv(cfg, w.s) && Possible(w, e) && id in w.s.run.jobs
    requires Ledger(cfg, w.s.run.cooldowns, id, w.s.run.jobs[id])
    ensures var t := Next(cfg, w, e).s.run; id in t.jobs && Ledger(cfg, t.cooldowns, id, t.jobs[id])
  {
    hide AdmitFrom, Complete, Inv, Ledger;
    match e
    case Admit(paused) =>
      if !(paused || !w.admitting || w.killed) {
        Steps.OrderListsJobs(cfg, w.s);
        AdmitKeepsLedger(cfg, w.s, w.now, w.s.run.order, id);
      }
    case Completion(f, end, cls) =>
      CompleteKeepsInv(cfg, w.s, w.now, f, end, cls, w.killed);
      CompletionOnLedger(cfg, w.s, w.now, f, end, cls, w.killed, id);
    case _ =>
  }

  // The ledger holds of a fresh job after every sequence of events.
  lemma {:induction false} LedgerHolds(cfg: Config, w: World, es: seq<Event>, id: string)
    requires Inv(cfg, w.s) && Trace(cfg, w, es) && id in w.s.run.jobs
    requires Ledger(cfg, w.s.run.cooldowns, id, w.s.run.jobs[id])
    ensures var t := After(cfg, w, es).s.run; id in t.jobs && Ledger(cfg, t.cooldowns, id, t.jobs[id])
    decreases |es|
  {
    hide Next, Possible, Inv, Ledger;
    if es != [] {
      NextKeepsLedger(cfg, w, es[0], id);
      LedgerHolds(cfg, Next(cfg, w, es[0]), es[1..], id);
    }
  }

  // The exact ledger: a fresh job's stockouts number rounds times its feasible
  // zones, plus the zones swept since while it is not waiting for a new sweep.
  lemma StockoutsAreCounted(cfg: Config, w: World, es: seq<Event>, id: string)
    requires Inv(cfg, w.s) && Trace(cfg, w, es) && id in w.s.run.jobs && Fresh(w.s.run.cooldowns, id, w.s.run.jobs[id])
    ensures var run := After(cfg, w, es).s.run;
      && id in run.jobs
      && var rec, n := run.jobs[id], |Feasible(cfg, run.jobs[id].job)|;
         var stockouts := CountClass(rec.attempts, Stockout);
         && rec.swept <= Feasible(cfg, rec.job)
         && (StockoutKey(id) in run.cooldowns ==> stockouts == rec.rounds * n && rec.swept == Feasible(cfg, rec.job))
         && (StockoutKey(id) !in run.cooldowns && !rec.status.FailedInfra? ==>
           stockouts == rec.rounds * n + |rec.swept|)
  {
    hide Trace, After, Inv, Ledger, Fresh, ValidConfig, Feasible;
    Steps.ConfigOf(cfg, w.s);
    FreshLedger(cfg, w.s.run.cooldowns, id, w.s.run.jobs[id]);
    LedgerHolds(cfg, w, es, id);
    var run := After(cfg, w, es).s.run;
    LedgerCounts(cfg, run.cooldowns, id, run.jobs[id]);
  }

  lemma LedgerCounts(cfg: Config, cooldowns: map<CooldownKey, int>, id: string, rec: Record)
    requires Ledger(cfg, cooldowns, id, rec)
    ensures var n := |Feasible(cfg, rec.job)|;
      var stockouts := CountClass(rec.attempts, Stockout);
      && rec.swept <= Feasible(cfg, rec.job)
      && (StockoutKey(id) in cooldowns ==> stockouts == rec.rounds * n && rec.swept == Feasible(cfg, rec.job))
      && (StockoutKey(id) !in cooldowns && !rec.status.FailedInfra? ==> stockouts == rec.rounds * n + |rec.swept|)
  {
    hide Feasible, Block, SetOf, CountClass;
    assert |StockZones(rec.attempts)| == CountClass(rec.attempts, Stockout);
  }

  ghost predicate OnlyStockouts(attempts: seq<Attempt>) {
    forall a :: a in attempts ==> a.outcome == Classified(Stockout)
  }

  lemma {:induction false} OnlyStockoutsCount(attempts: seq<Attempt>)
    requires OnlyStockouts(attempts)
    ensures CountClass(attempts, Stockout) == |attempts|
  {
    if attempts != [] {
      var n := |attempts| - 1;
      assert attempts[n] in attempts;
      OnlyStockoutsCount(attempts[..n]);
    }
  }

  ghost predicate FailedByStockoutsAlone(cfg: Config, rec: Record) {
    && (rec.status.FailedInfra? <==> |rec.attempts| == cfg.retries.stockout * |Feasible(cfg, rec.job)|)
    && (rec.status.FailedInfra? ==>
          forall k :: 0 <= k < cfg.retries.stockout ==> Block(StockZones(rec.attempts), Feasible(cfg, rec.job), k))
  }

  lemma LedgerDecidesFailure(cfg: Config, cooldowns: map<CooldownKey, int>, id: string, rec: Record)
    requires ValidConfig(cfg) && Ledger(cfg, cooldowns, id, rec) && SweepOK(cfg, cooldowns, id, rec)
    requires OnlyStockouts(rec.attempts) && !Retired(rec.status)
    ensures FailedByStockoutsAlone(cfg, rec)
  {
    hide Feasible, StockZones, Block;
    OnlyStockoutsCount(rec.attempts);
    var feasible := Feasible(cfg, rec.job);
    if rec.rounds < cfg.retries.stockout {
      SubsetSize(rec.swept, feasible);
      SubsetSize({}, feasible);
      TimesMonotone(rec.rounds + 1, cfg.retries.stockout, |feasible|);
      assert (rec.rounds + 1) * |feasible| == rec.rounds * |feasible| + |feasible|;
    }
  }

  // A fresh job that has only run out of stock has failed exactly when it has
  // made stockout * |feasible| attempts, one per zone and sweep.
  lemma FailsAfterExactlyAllSweeps(cfg: Config, w: World, es: seq<Event>, id: string)
    requires Inv(cfg, w.s) && Trace(cfg, w, es) && id in w.s.run.jobs && Fresh(w.s.run.cooldowns, id, w.s.run.jobs[id])
    ensures var jobs := After(cfg, w, es).s.run.jobs;
      && id in jobs
      && (OnlyStockouts(jobs[id].attempts) && !Retired(jobs[id].status) ==> FailedByStockoutsAlone(cfg, jobs[id]))
  {
    assert ValidConfig(cfg);
    hide Trace, After, Inv, FailedByStockoutsAlone, Ledger, SweepOK, ValidConfig, OnlyStockouts;
    FreshLedger(cfg, w.s.run.cooldowns, id, w.s.run.jobs[id]);
    LedgerHolds(cfg, w, es, id);
    var s := After(cfg, w, es).s;
    SweepOf(cfg, s, id);
    if OnlyStockouts(s.run.jobs[id].attempts) && !Retired(s.run.jobs[id].status) {
      LedgerDecidesFailure(cfg, s.run.cooldowns, id, s.run.jobs[id]);
    }
  }
}
