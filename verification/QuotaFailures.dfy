// What a quota failure does to the runs that follow: the region is closed to
// the family for a while, and its limit halved for ten minutes.
module QuotaFailures {
  import opened Names
  import opened Jobs
  import opened Budgets
  import opened Spec
  import opened Picking
  import opened Accounting
  import opened Invariants
  import opened Completions
  import opened Admission
  import opened Runs
  import opened Backoff
  import Steps
  import Safety

  function FamilyOf(s: Sched, f: Flight): string
    requires f.id in s.run.jobs
  {
    s.run.jobs[f.id].job.budgetKey
  }

  function Least(a: int, b: int): int {
    if a < b then a else b
  }

  // One quota failure: a penalty of ten minutes, and, unless the family's
  // window in the region is open already, the next window.
  ghost predicate QuotaTimers(cfg: Config, s: Sched, t: Sched, now: int, family: string, region: string) {
    var key := QuotaKey(family, region);
    var n := GetOr(s.hits, key, 0) + 1;
    && t.penalty == s.penalty[(family, region) := now + 600_000_000_000]
    && key in t.run.cooldowns
    && (key in s.run.cooldowns && now < s.run.cooldowns[key] ==>
          t.hits == s.hits && t.run.cooldowns == s.run.cooldowns)
    && (!(key in s.run.cooldowns && now < s.run.cooldowns[key]) ==>
          && t.hits == s.hits[key := n]
          && t.run.cooldowns == s.run.cooldowns[key := now + Wrap64(cfg.retries.cooldownBase * Pow2(Least(n, 6) - 1))])
  }

  lemma QuotaFailureSetsTimers(cfg: Config, s: Sched, now: int, f: Flight, end: int)
    requires f.id in s.run.jobs && |s.run.jobs[f.id].attempts| > 0
    ensures QuotaTimers(cfg, s, Complete(cfg, s, now, f, end, Quota, false), now, FamilyOf(s, f), ZoneRegion(f.zone))
  {
    hide CloseLast, Settle, ZoneRegion, Charge, QuotaTimers;
    var rec := s.run.jobs[f.id];
    ChargeFrame(cfg, s, rec.job, ZoneRegion(f.zone), -1);
    var s1 := Charge(cfg, s, rec.job, ZoneRegion(f.zone), -1).(flights := s.flights - multiset{f});
    var s2 := SetRecord(s1, f.id, CloseAttempt(rec, end, Classified(Quota)));
    SettleQuota(cfg, s2, now, f.id, f.zone);
    TimersFrame(cfg, s, s2, Settle(cfg, s2, now, f.id, f.zone, Quota),
      Complete(cfg, s, now, f, end, Quota, false), now, FamilyOf(s, f), ZoneRegion(f.zone));
  }

  lemma SettleQuota(cfg: Config, s: Sched, now: int, id: string, zone: string)
    requires id in s.run.jobs
    ensures var family := s.run.jobs[id].job.budgetKey;
      QuotaTimers(cfg, s, Settle(cfg, s, now, id, zone, Quota), now, family, ZoneRegion(zone))
  {
    hide Pow2, Wrap64, ZoneRegion, RequeueOr;
  }

  lemma TimersFrame(
      cfg: Config, s: Sched, s': Sched, t: Sched, t': Sched, now: int, family: string, region: string)
    requires QuotaTimers(cfg, s', t, now, family, region)
    requires s'.penalty == s.penalty && s'.hits == s.hits && s'.run.cooldowns == s.run.cooldowns
    requires t'.penalty == t.penalty && t'.hits == t.hits && t'.run.cooldowns == t.run.cooldowns
    ensures QuotaTimers(cfg, s, t', now, family, region)
  {
    hide Pow2, Wrap64;
  }

  // No other completion touches the penalties, the windows or their count.
  lemma OthersKeepTimers(cfg: Config, s: Sched, now: int, f: Flight, end: int, cls: Class, killed: bool)
    requires f.id in s.run.jobs && |s.run.jobs[f.id].attempts| > 0 && (killed || !cls.Quota?)
    ensures var t := Complete(cfg, s, now, f, end, cls, killed);
      && t.penalty == s.penalty && t.hits == s.hits
      && forall key: CooldownKey :: !key.StockoutKey? ==>
           (key in t.run.cooldowns <==> key in s.run.cooldowns)
           && (key in s.run.cooldowns ==> t.run.cooldowns[key] == s.run.cooldowns[key])
  {
    hide CloseLast, Pow2, Wrap64, ZoneRegion, Swept, BumpCooldown, RequeueOr, Charge;
    ChargeFrame(cfg, s, s.run.jobs[f.id].job, ZoneRegion(f.zone), -1);
  }

  // ---------------------------------------------------------- over whole runs

  // The penalty ends no later than ten minutes from now.
  ghost predicate PenaltyBounded(w: World, p: (string, string)) {
    p in w.s.penalty ==> w.s.penalty[p] <= w.now + 600_000_000_000
  }

  lemma NextKeepsPenalties(cfg: Config, w: World, e: Event, p: (string, string))
    requires Inv(cfg, w.s) && Possible(w, e) && PenaltyBounded(w, p)
    ensures var w' := Next(cfg, w, e);
      && PenaltyBounded(w', p) && w.now <= w'.now
      && (p in w.s.penalty ==> p in w'.s.penalty && w'.s.penalty[p] >= w.s.penalty[p])
  {
    hide Inv, AdmitFrom, Complete;
    match e
    case Admit(paused) =>
      if !(paused || !w.admitting || w.killed) {
        Steps.OrderListsJobs(cfg, w.s);
        AdmitPasses(cfg, w.s, w.now, w.s.run.order);
      }
    case Completion(f, end, cls) =>
      CompleteKeepsInv(cfg, w.s, w.now, f, end, cls, w.killed);
      InFlightHasAttempts(w.s.run.jobs, f);
      if !w.killed && cls.Quota? {
        QuotaFailureSetsTimers(cfg, w.s, w.now, f, end);
      } else {
        OthersKeepTimers(cfg, w.s, w.now, f, end, cls, w.killed);
      }
    case _ =>
  }

  lemma {:induction false} PenaltiesStay(cfg: Config, w: World, es: seq<Event>, p: (string, string))
    requires Inv(cfg, w.s) && Trace(cfg, w, es) && PenaltyBounded(w, p)
    ensures var w' := After(cfg, w, es);
      && PenaltyBounded(w', p) && w.now <= w'.now
      && (p in w.s.penalty ==> p in w'.s.penalty && w'.s.penalty[p] >= w.s.penalty[p])
    decreases |es|
  {
    hide Inv, Next, Possible, PenaltyBounded;
    if es != [] {
      NextKeepsPenalties(cfg, w, es[0], p);
      PenaltiesStay(cfg, Next(cfg, w, es[0]), es[1..], p);
    }
  }

  // For ten minutes after a quota failure, whatever happens meanwhile, what is
  // allowed of the family in the region is half of what the budget makes usable.
  lemma QuotaFailureHalvesTheLimit(cfg: Config, w: World, f: Flight, end: int, es: seq<Event>)
    requires Inv(cfg, w.s) && Possible(w, Completion(f, end, Quota)) && !w.killed
    requires Trace(cfg, Next(cfg, w, Completion(f, end, Quota)), es)
    ensures InFlight(w.s.run.jobs, f)
    ensures var w' := After(cfg, Next(cfg, w, Completion(f, end, Quota)), es);
      w'.now < w.now + 600_000_000_000 ==>
        Allowed(cfg, w'.s, w'.now, ZoneRegion(f.zone), FamilyOf(w.s, f))
        == Usable(cfg, ZoneRegion(f.zone), FamilyOf(w.s, f)) / 2
  {
    hide Inv, Complete, Trace, After, Allowed, Usable, ZoneRegion;
    CompleteKeepsInv(cfg, w.s, w.now, f, end, Quota, false);
    InFlightHasAttempts(w.s.run.jobs, f);
    QuotaFailureSetsTimers(cfg, w.s, w.now, f, end);
    var w1 := Next(cfg, w, Completion(f, end, Quota));
    var p := (FamilyOf(w.s, f), ZoneRegion(f.zone));
    assert PenaltyBounded(w1, p);
    PenaltiesStay(cfg, w1, es, p);
    var w' := After(cfg, w1, es);
    Safety.Penalized(cfg, w'.s, w'.now, p.1, p.0);
  }

  // A quota failure leaves the family's window in the region open, and while
  // it is, whatever happens meanwhile, no job of the family is placed there.
  lemma QuotaFailureClosesTheRegion(cfg: Config, w: World, f: Flight, end: int, es: seq<Event>)
    requires Inv(cfg, w.s) && Possible(w, Completion(f, end, Quota)) && !w.killed && ShortWindows(cfg)
    requires Trace(cfg, Next(cfg, w, Completion(f, end, Quota)), es)
    ensures InFlight(w.s.run.jobs, f)
    ensures var key := QuotaKey(FamilyOf(w.s, f), ZoneRegion(f.zone));
      var w1 := Next(cfg, w, Completion(f, end, Quota));
      var w' := After(cfg, w1, es);
      && key in w1.s.run.cooldowns && w.now < w1.s.run.cooldowns[key]
      && (w'.now < w1.s.run.cooldowns[key] ==>
            forall rec: Record, z :: rec.job.budgetKey == FamilyOf(w.s, f) && ZoneRegion(z) == ZoneRegion(f.zone) ==>
              !Admissible(cfg, w'.s, w'.now, rec, z))
  {
    hide Inv, Complete, Trace, After, Headroom, ZoneRegion, ShortWindows;
    CompleteKeepsInv(cfg, w.s, w.now, f, end, Quota, false);
    InFlightHasAttempts(w.s.run.jobs, f);
    QuotaFailureSetsTimers(cfg, w.s, w.now, f, end);
    var key := QuotaKey(FamilyOf(w.s, f), ZoneRegion(f.zone));
    WindowAhead(cfg, GetOr(w.s.hits, key, 0) + 1);
    QuotaWindowsOverRuns(cfg, Next(cfg, w, Completion(f, end, Quota)), es, key);
  }

  lemma WindowAhead(cfg: Config, n: nat)
    requires ShortWindows(cfg) && n >= 1
    ensures Wrap64(cfg.retries.cooldownBase * Pow2(Least(n, 6) - 1)) == cfg.retries.cooldownBase * Pow2(Least(n, 6) - 1)
    ensures cfg.retries.cooldownBase * Pow2(Least(n, 6) - 1) > 0
  {
    Pow2Monotone(Least(n, 6) - 1, 5);
    Pow2Of5();
    hide Pow2, Wrap64;
    ScaleBound(cfg.retries.cooldownBase, Pow2(Least(n, 6) - 1), 32);
    WrapSmall(cfg.retries.cooldownBase * Pow2(Least(n, 6) - 1));
  }

  lemma Pow2Of5()
    ensures Pow2(0) == 1 && Pow2(1) == 2 && Pow2(2) == 4 && Pow2(3) == 8 && Pow2(4) == 16 && Pow2(5) == 32
  {
    assert Pow2(3) == 8;
  }

  // ------------------------------------------------------ the n-th window

  // The event opens a window of the key.
  ghost predicate Opens(w: World, w': World, key: CooldownKey) {
    key in w'.s.run.cooldowns
    && (key !in w.s.run.cooldowns || w'.s.run.cooldowns[key] != w.s.run.cooldowns[key])
  }

  ghost function WindowsOpened(cfg: Config, w: World, es: seq<Event>, key: CooldownKey): nat
    requires Inv(cfg, w.s) && Trace(cfg, w, es)
    decreases |es|
  {
    if es == [] then 0
    else
      var w1 := Next(cfg, w, es[0]);
      (if Opens(w, w1, key) then 1 else 0) + WindowsOpened(cfg, w1, es[1..], key)
  }

  // It opens the n-th window, n counting from the hits so far, or none.
  ghost predicate OpensNext(cfg: Config, w: World, w': World, key: CooldownKey) {
    var n := GetOr(w.s.hits, key, 0) + 1;
    if Opens(w, w', key) then
      && GetOr(w'.s.hits, key, 0) == n
      && w'.s.run.cooldowns[key] == w.now + cfg.retries.cooldownBase * Pow2(Least(n, 6) - 1)
    else
      GetOr(w'.s.hits, key, 0) == n - 1
  }

  lemma EventOpens(cfg: Config, w: World, e: Event, key: CooldownKey)
    requires Inv(cfg, w.s) && Possible(w, e) && ShortWindows(cfg) && key.QuotaKey?
    ensures OpensNext(cfg, w, Next(cfg, w, e), key)
  {
    hide Inv, AdmitFrom, Complete, ShortWindows, Pow2, Wrap64;
    WindowAhead(cfg, GetOr(w.s.hits, key, 0) + 1);
    match e
    case Admit(paused) =>
      if !(paused || !w.admitting || w.killed) {
        Steps.OrderListsJobs(cfg, w.s);
        AdmitPasses(cfg, w.s, w.now, w.s.run.order);
      }
    case Completion(f, end, cls) =>
      CompleteKeepsInv(cfg, w.s, w.now, f, end, cls, w.killed);
      InFlightHasAttempts(w.s.run.jobs, f);
      if !w.killed && cls.Quota? {
        QuotaFailureSetsTimers(cfg, w.s, w.now, f, end);
      } else {
        OthersKeepTimers(cfg, w.s, w.now, f, end, cls, w.killed);
      }
    case _ =>
  }

  lemma {:induction false} HitsCountWindows(cfg: Config, w: World, es: seq<Event>, key: CooldownKey)
    requires Inv(cfg, w.s) && Trace(cfg, w, es) && ShortWindows(cfg) && key.QuotaKey?
    ensures GetOr(After(cfg, w, es).s.hits, key, 0) == GetOr(w.s.hits, key, 0) + WindowsOpened(cfg, w, es, key)
    decreases |es|
  {
    hide Inv, Next, Possible, ShortWindows, Opens;
    if es != [] {
      EventOpens(cfg, w, es[0], key);
      HitsCountWindows(cfg, Next(cfg, w, es[0]), es[1..], key);
    }
  }

  // The n-th window a scheduler opens for a family in a region is the base
  // doubled n - 1 times, five times at most.
  lemma NthWindow(cfg: Config, w: World, es: seq<Event>, e: Event, key: CooldownKey)
    requires Inv(cfg, w.s) && Trace(cfg, w, es) && ShortWindows(cfg) && key.QuotaKey? && key !in w.s.hits
    requires Possible(After(cfg, w, es), e)
    ensures var w1 := After(cfg, w, es);
      var w2 := Next(cfg, w1, e);
      var n := WindowsOpened(cfg, w, es, key) + 1;
      Opens(w1, w2, key) ==>
        && key in w2.s.run.cooldowns
        && w2.s.run.cooldowns[key] == w1.now + cfg.retries.cooldownBase * Pow2(Least(n, 6) - 1)
  {
    hide Inv, Next, Possible, ShortWindows, Trace, After, WindowsOpened, Pow2;
    HitsCountWindows(cfg, w, es, key);
    EventOpens(cfg, After(cfg, w, es), e, key);
  }
}
