// Back-off arithmetic over whole runs: quota windows and sweep cooldowns.
module Backoff {
  import opened Names
  import opened Jobs
  import opened Budgets
  import opened Spec
  import opened Accounting
  import opened Invariants
  import Steps
  import opened Completions
  import opened Admission
  import opened Termination
  import opened Sweeps
  import opened Runs

  lemma {:induction false} Pow2Monotone(a: nat, b: nat)
    requires a <= b
    ensures Pow2(a) <= Pow2(b)
  {
    if a < b { Pow2Monotone(a, b - 1); }
  }

  lemma WrapSmall(x: int)
    requires 0 <= x < 0x8000_0000_0000_0000
    ensures Wrap64(x) == x
  {
  }

  // ------------------------------------------------------------ quota windows

  // The longest quota window still fits a 64-bit duration.
  ghost predicate ShortWindows(cfg: Config) {
    ValidConfig(cfg) && cfg.retries.cooldownBase * 32 < 0x8000_0000_0000_0000
  }

  // How one event moves the end of a quota window: never while the window is
  // active, never backwards, and never beyond 32 times the base from now.
  ghost predicate WindowMoves(
      cfg: Config, before: map<CooldownKey, int>, after: map<CooldownKey, int>, now: int, key: CooldownKey) {
    && (key in before ==> key in after && after[key] >= before[key])
    && (Cooling(before, key, now) ==> after[key] == before[key])
    && (key in after ==>
          (key in before && after[key] == before[key]) || now < after[key] <= now + 32 * cfg.retries.cooldownBase)
  }

  lemma BumpMovesWindow(cfg: Config, s: Sched, now: int, bumped: CooldownKey, key: CooldownKey)
    requires ShortWindows(cfg)
    ensures WindowMoves(cfg, s.run.cooldowns, BumpCooldown(cfg, s, now, bumped).run.cooldowns, now, key)
    ensures var t := BumpCooldown(cfg, s, now, bumped);
      t == s.(hits := t.hits, run := s.run.(cooldowns := t.run.cooldowns))
  {
    hide Wrap64, Pow2;
    var count := GetOr(s.hits, bumped, 0) + 1;
    WindowLength(cfg, if count > 6 then 6 else count);
  }

  lemma WindowLength(cfg: Config, hits: int)
    requires ShortWindows(cfg) && 1 <= hits <= 6
    ensures 0 < Wrap64(cfg.retries.cooldownBase * Pow2(hits - 1)) <= 32 * cfg.retries.cooldownBase
  {
    Pow2Monotone(hits - 1, 5);
    assert Pow2(5) == 32 by { assert Pow2(3) == 8; }
    hide Pow2, Wrap64;
    ScaleBound(cfg.retries.cooldownBase, Pow2(hits - 1), 32);
    WrapSmall(cfg.retries.cooldownBase * Pow2(hits - 1));
  }

  lemma ScaleBound(base: int, a: int, b: int)
    requires base > 0 && 0 < a <= b
    ensures 0 < base * a <= base * b
  {
  }

  lemma CompleteMovesWindow(
      cfg: Config, s: Sched, now: int, f: Flight, end: int, cls: Class, killed: bool, key: CooldownKey)
    requires ShortWindows(cfg) && f.id in s.run.jobs && |s.run.jobs[f.id].attempts| > 0 && !key.StockoutKey?
    ensures WindowMoves(cfg, s.run.cooldowns, Complete(cfg, s, now, f, end, cls, killed).run.cooldowns, now, key)
  {
    hide CountClass, AddCPU, BudgetKeys, CloseAttempt, BumpCooldown, Fits, Pow2, Wrap64, ValidConfig;
    var rec := s.run.jobs[f.id];
    var s1 := Charge(cfg, s, rec.job, ZoneRegion(f.zone), -1).(flights := s.flights - multiset{f});
    var s2 := SetRecord(s1, f.id, CloseAttempt(rec, end, Classified(cls)));
    BumpMovesWindow(cfg, s2, now, QuotaKey(s2.run.jobs[f.id].job.budgetKey, ZoneRegion(f.zone)), key);
  }

  lemma NextMovesWindow(cfg: Config, w: World, e: Event, key: CooldownKey)
    requires Inv(cfg, w.s) && Possible(w, e) && ShortWindows(cfg) && !key.StockoutKey?
    ensures WindowMoves(cfg, w.s.run.cooldowns, Next(cfg, w, e).s.run.cooldowns, w.now, key)
    ensures Next(cfg, w, e).now >= w.now
  {
    hide AdmitFrom, Complete, Inv, ShortWindows;
    match e
    case Admit(paused) =>
      if !(paused || !w.admitting || w.killed) {
        Steps.OrderListsJobs(cfg, w.s);
        AdmitPasses(cfg, w.s, w.now, w.s.run.order);
      }
    case Completion(f, end, cls) =>
      CompleteKeepsInv(cfg, w.s, w.now, f, end, cls, w.killed);
      InFlightHasAttempts(w.s.run.jobs, f);
      CompleteMovesWindow(cfg, w.s, w.now, f, end, cls, w.killed, key);
    case _ =>
  }

  // Over any run a quota window is not moved while it is active, its end never
  // decreases, and it is never more than 32 times the base ahead of the clock
  // unless it was so at the start.
  lemma {:induction false} QuotaWindowsOverRuns(cfg: Config, w: World, es: seq<Event>, key: CooldownKey)
    requires Inv(cfg, w.s) && Trace(cfg, w, es) && ShortWindows(cfg) && key.QuotaKey?
    ensures var w' := After(cfg, w, es);
      && w.now <= w'.now
      && (key in w.s.run.cooldowns && w'.now < w.s.run.cooldowns[key] ==>
            key in w'.s.run.cooldowns && w'.s.run.cooldowns[key] == w.s.run.cooldowns[key])
      && (key in w.s.run.cooldowns ==> key in w'.s.run.cooldowns && w'.s.run.cooldowns[key] >= w.s.run.cooldowns[key])
      && (WindowWithin(cfg, w, key) ==> WindowWithin(cfg, w', key))
    decreases |es|
  {
    hide Next, Possible, Inv, ShortWindows;
    if es != [] {
      NextMovesWindow(cfg, w, es[0], key);
      QuotaWindowsOverRuns(cfg, Next(cfg, w, es[0]), es[1..], key);
    }
  }

  ghost predicate WindowWithin(cfg: Config, w: World, key: CooldownKey) {
    key in w.s.run.cooldowns ==> w.s.run.cooldowns[key] <= w.now + 32 * cfg.retries.cooldownBase
  }

  // --------------------------------------------------------- sweep cooldowns

  // What completing the first r sweeps earns a job in back-off.
  function SweepBackoff(cfg: Config, rounds: nat): int {
    if rounds == 0 then 0
    else SweepBackoff(cfg, rounds - 1) + (if rounds < cfg.retries.stockout then SweepDelay(cfg, rounds) else 0)
  }

  // The back-off a job is granted by one event.
  ghost function Grant(cfg: Config, w: World, e: Event, id: string): int
    requires Inv(cfg, w.s) && Possible(w, e)
  {
    var w' := Next(cfg, w, e);
    if StockoutKey(id) in w'.s.run.cooldowns && StockoutKey(id) !in w.s.run.cooldowns
    then w'.s.run.cooldowns[StockoutKey(id)] - w.now else 0
  }

  ghost function Granted(cfg: Config, w: World, es: seq<Event>, id: string): int
    requires Inv(cfg, w.s) && Trace(cfg, w, es)
    decreases |es|
  {
    if es == [] then 0 else Grant(cfg, w, es[0], id) + Granted(cfg, Next(cfg, w, es[0]), es[1..], id)
  }

  // One event grants exactly what the sweeps it completes earn.
  ghost predicate Earns(cfg: Config, run: RunData, run': RunData, now: int, id: string) {
    && id in run.jobs && id in run'.jobs && 0 <= run.jobs[id].rounds <= run'.jobs[id].rounds
    && (if StockoutKey(id) in run'.cooldowns && StockoutKey(id) !in run.cooldowns
        then run'.cooldowns[StockoutKey(id)] - now else 0)
       == SweepBackoff(cfg, run'.jobs[id].rounds) - SweepBackoff(cfg, run.jobs[id].rounds)
  }

  lemma StockoutEarns(cfg: Config, run: RunData, now: int, id: string, zone: string, closed: Record)
    requires id in run.jobs && run.jobs[id].rounds >= 0 && StockoutKey(id) !in run.cooldowns
    requires closed.rounds == run.jobs[id].rounds
    ensures Earns(cfg, run, RecordStockout(cfg, run.(jobs := run.jobs[id := closed]), now, id, zone), now, id)
  {
    hide Feasible, RecordStockout, SweepDelay;
    StockoutOutcome(cfg, run.(jobs := run.jobs[id := closed]), now, id, zone);
  }

  lemma NothingEarned(cfg: Config, run: RunData, run': RunData, now: int, id: string)
    requires id in run.jobs && id in run'.jobs && 0 <= run.jobs[id].rounds == run'.jobs[id].rounds
    requires StockoutKey(id) in run'.cooldowns ==> StockoutKey(id) in run.cooldowns
    ensures Earns(cfg, run, run', now, id)
  {
  }

  lemma CompleteEarns(cfg: Config, s: Sched, now: int, f: Flight, end: int, cls: Class, killed: bool, id: string)
    requires Inv(cfg, s) && InFlight(s.run.jobs, f) && id in s.run.jobs
    ensures Earns(cfg, s.run, Complete(cfg, s, now, f, end, cls, killed).run, now, id)
  {
    RunningRecord(cfg, s, f);
    RoundsNonNegative(cfg, s, id);
    InFlightHasAttempts(s.run.jobs, f);
    hide Complete, Inv, RecordStockout, Feasible, Untried, Earns, CloseLast, InFlight, IsOpen, ValidConfig;
    if id != f.id {
      CompleteOthers(cfg, s, now, f, end, cls, killed, id);
      NothingEarned(cfg, s.run, Complete(cfg, s, now, f, end, cls, killed).run, now, id);
    } else if !killed && cls.Stockout? {
      CompleteStockoutRun(cfg, s, now, f, end);
      StockoutEarns(cfg, s.run, now, id, f.zone, CloseAttempt(s.run.jobs[id], end, Classified(cls)));
    } else {
      CompleteOtherRun(cfg, s, now, f, end, cls, killed);
      NothingEarned(cfg, s.run, Complete(cfg, s, now, f, end, cls, killed).run, now, id);
    }
  }

  lemma RoundsNonNegative(cfg: Config, s: Sched, id: string)
    requires Inv(cfg, s) && id in s.run.jobs
    ensures s.run.jobs[id].rounds >= 0
  {
    hide Inv;
    Steps.JobsAreValid(cfg, s, id);
  }

  lemma {:induction false} AdmitKeepsRounds(cfg: Config, s: Sched, now: int, ids: seq<string>, id: string)
    requires Inv(cfg, s) && id in s.run.jobs && forall i :: i in ids ==> i in s.run.jobs
    ensures AdmitFrom(cfg, s, now, ids).run.jobs[id].rounds == s.run.jobs[id].rounds
    decreases |ids|
  {
    hide AdmitOne, Inv, AdmitFrom;
    Steps.AdmitFromStep(cfg, s, now, ids);
    if ids != [] && !(s.run.jobs[ids[0]].status == Queued && s.running >= cfg.containerCap) {
      var t := AdmitOne(cfg, s, now, ids[0]);
      AdmitOneKeepsRounds(cfg, s, now, ids[0], id);
      Steps.AdmitOneKeepsInv(cfg, s, now, ids[0]);
      AdmitKeepsRounds(cfg, t, now, ids[1..], id);
    }
  }

  lemma AdmitOneKeepsRounds(cfg: Config, s: Sched, now: int, turn: string, id: string)
    requires turn in s.run.jobs && id in s.run.jobs
    ensures AdmitOne(cfg, s, now, turn).run.jobs[id].rounds == s.run.jobs[id].rounds
  {
    hide PickZone, Blocked, Launch, StartSweep;
    var avoid := AvoidZone(s.run.jobs[turn].attempts);
    Picking.PickZoneFrame(cfg, s, now, turn, avoid);
    var (zone, t) := PickZone(cfg, s, now, turn, avoid);
    if zone != "" { Steps.LaunchEffect(cfg, t, now, turn, zone); }
  }

  lemma AdmitEarnsNothing(cfg: Config, s: Sched, now: int, id: string)
    requires Inv(cfg, s) && id in s.run.jobs && forall i :: i in s.run.order ==> i in s.run.jobs
    ensures Earns(cfg, s.run, AdmitFrom(cfg, s, now, s.run.order).run, now, id)
  {
    hide Inv, AdmitFrom, Earns;
    RoundsNonNegative(cfg, s, id);
    AdmitPasses(cfg, s, now, s.run.order);
    AdmitKeepsRounds(cfg, s, now, s.run.order, id);
    NothingEarned(cfg, s.run, AdmitFrom(cfg, s, now, s.run.order).run, now, id);
  }

  lemma NextEarns(cfg: Config, w: World, e: Event, id: string)
    requires Inv(cfg, w.s) && Possible(w, e) && id in w.s.run.jobs
    ensures Earns(cfg, w.s.run, Next(cfg, w, e).s.run, w.now, id)
  {
    RoundsNonNegative(cfg, w.s, id);
    hide AdmitFrom, Complete, Inv, Earns, Due;
    if e.Completion? {
      CompleteKeepsInv(cfg, w.s, w.now, e.f, e.end, e.cls, w.killed);
      CompleteEarns(cfg, w.s, w.now, e.f, e.end, e.cls, w.killed, id);
    } else if e.Admit? && !(e.paused || !w.admitting || w.killed) {
      Steps.OrderListsJobs(cfg, w.s);
      AdmitEarnsNothing(cfg, w.s, w.now, id);
    } else {
      NothingEarned(cfg, w.s.run, Next(cfg, w, e).s.run, w.now, id);
    }
  }

  lemma GrantIsEarned(cfg: Config, w: World, e: Event, id: string)
    requires Inv(cfg, w.s) && Possible(w, e) && id in w.s.run.jobs
    ensures var jobs := Next(cfg, w, e).s.run.jobs;
      && id in jobs && 0 <= w.s.run.jobs[id].rounds <= jobs[id].rounds
      && Grant(cfg, w, e, id) == SweepBackoff(cfg, jobs[id].rounds) - SweepBackoff(cfg, w.s.run.jobs[id].rounds)
  {
    hide Next, Inv, Possible, SweepBackoff;
    NextEarns(cfg, w, e, id);
  }

  lemma {:induction false} GrantedIsEarned(cfg: Config, w: World, es: seq<Event>, id: string)
    requires Inv(cfg, w.s) && Trace(cfg, w, es) && id in w.s.run.jobs
    ensures var jobs := After(cfg, w, es).s.run.jobs;
      && id in jobs && 0 <= w.s.run.jobs[id].rounds <= jobs[id].rounds
      && Granted(cfg, w, es, id) == SweepBackoff(cfg, jobs[id].rounds) - SweepBackoff(cfg, w.s.run.jobs[id].rounds)
    decreases |es|
  {
    RoundsNonNegative(cfg, w.s, id);
    hide Next, Possible, Inv, SweepBackoff, Grant;
    if es != [] {
      GrantIsEarned(cfg, w, es[0], id);
      GrantedIsEarned(cfg, Next(cfg, w, es[0]), es[1..], id);
    }
  }

  // Without overflow the back-offs form a geometric sum.
  lemma {:induction false} SweepBackoffSum(cfg: Config, rounds: nat)
    requires ValidConfig(cfg) && rounds < cfg.retries.stockout
    requires rounds >= 1 ==> cfg.retries.cooldownBase * Pow2(rounds - 1) < 0x8000_0000_0000_0000
    ensures SweepBackoff(cfg, rounds) == cfg.retries.cooldownBase * (Pow2(rounds) - 1)
  {
    hide Wrap64;
    if rounds >= 1 {
      var base := cfg.retries.cooldownBase;
      if rounds >= 2 {
        ScaleBound(base, Pow2(rounds - 2), Pow2(rounds - 1));
      }
      SweepBackoffSum(cfg, rounds - 1);
      ScaleBound(base, Pow2(rounds - 1), Pow2(rounds - 1));
      WrapSmall(base * Pow2(rounds - 1));
      assert base * (Pow2(rounds) - 1) == base * (Pow2(rounds - 1) - 1) + base * Pow2(rounds - 1);
    }
  }

  // Wrapping around only ever shortens a back-off.
  lemma WrapShortens(x: int)
    requires 0 <= x
    ensures Wrap64(x) <= x
    ensures x >= 0x8000_0000_0000_0000 ==> Wrap64(x) < x
  {
  }

  lemma {:induction false} SweepBackoffAtMost(cfg: Config, rounds: nat)
    requires ValidConfig(cfg) && rounds < cfg.retries.stockout
    ensures SweepBackoff(cfg, rounds) <= cfg.retries.cooldownBase * (Pow2(rounds) - 1)
    ensures rounds >= 1 && cfg.retries.cooldownBase * Pow2(rounds - 1) >= 0x8000_0000_0000_0000 ==>
      SweepBackoff(cfg, rounds) < cfg.retries.cooldownBase * (Pow2(rounds) - 1)
  {
    hide Wrap64;
    if rounds >= 1 {
      var base := cfg.retries.cooldownBase;
      SweepBackoffAtMost(cfg, rounds - 1);
      ScaleBound(base, Pow2(rounds - 1), Pow2(rounds - 1));
      WrapShortens(base * Pow2(rounds - 1));
      assert base * (Pow2(rounds) - 1) == base * (Pow2(rounds - 1) - 1) + base * Pow2(rounds - 1);
    }
  }

  // The longest back-off between two sweeps fits a 64-bit duration.
  predicate FitsDuration(cfg: Config) {
    cfg.retries.stockout >= 2 ==> cfg.retries.cooldownBase * Pow2(cfg.retries.stockout - 2) < 0x8000_0000_0000_0000
  }

  lemma AllSweepsBackoff(cfg: Config)
    requires ValidConfig(cfg)
    ensures SweepBackoff(cfg, cfg.retries.stockout) == cfg.retries.cooldownBase * (Pow2(cfg.retries.stockout - 1) - 1)
      <==> FitsDuration(cfg)
  {
    hide SweepDelay, Pow2;
    SweepBackoffAtMost(cfg, cfg.retries.stockout - 1);
    if FitsDuration(cfg) {
      SweepBackoffSum(cfg, cfg.retries.stockout - 1);
    }
  }

  // A fresh job that has failed for lack of stock was granted a total back-off
  // of exactly base * (2^(stockout-1) - 1), if and only if the longest of its
  // back-offs fits a 64-bit duration.
  lemma TotalBackoff(cfg: Config, w: World, es: seq<Event>, id: string)
    requires Inv(cfg, w.s) && Trace(cfg, w, es) && id in w.s.run.jobs && Fresh(w.s.run.cooldowns, id, w.s.run.jobs[id])
    ensures var jobs := After(cfg, w, es).s.run.jobs;
      && id in jobs
      && (jobs[id].rounds == cfg.retries.stockout ==>
          (FitsDuration(cfg) <==>
             Granted(cfg, w, es, id) == cfg.retries.cooldownBase * (Pow2(cfg.retries.stockout - 1) - 1)))
  {
    hide Trace, After, Granted, Inv, SweepBackoff, Pow2, FitsDuration, ValidConfig;
    Steps.ConfigOf(cfg, w.s);
    AllSweepsBackoff(cfg);
    NoSweepsNoBackoff(cfg);
    GrantedIsEarned(cfg, w, es, id);
  }

  lemma NoSweepsNoBackoff(cfg: Config)
    ensures SweepBackoff(cfg, 0) == 0
  {
  }

  // Doubling two minutes for 28 sweeps no longer fits.
  lemma LongBackoffWraps(cfg: Config)
    requires ValidConfig(cfg) && cfg.retries.cooldownBase == 120_000_000_000 && cfg.retries.stockout == 29
    ensures !FitsDuration(cfg) && SweepDelay(cfg, 28) < 0
  {
    assert Pow2(27) == 0x800_0000 by {
      assert Pow2(9) == 512;
      assert Pow2(18) == 512 * Pow2(9);
      assert Pow2(27) == 512 * Pow2(18);
    }
  }
}
