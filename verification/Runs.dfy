// Whole runs: the event loop as a state machine, and what holds of every
// sequence of its events.
module Runs {
  import opened Names
  import opened Jobs
  import opened Budgets
  import opened Spec
  import opened Accounting
  import opened Invariants
  import Steps
  import opened Completions
  import opened Admission
  import opened Termination

  // admitting and killed are the two contexts of Run.
  datatype World = World(s: Sched, now: int, admitting: bool, killed: bool)

  datatype Event =
    | Admit(paused: bool)
    | ContainerExit(id: string)
    | Completion(f: Flight, end: int, cls: Class)
    | Tick(to: int)
    | StopAdmission
    | KillJobs

  ghost predicate Possible(w: World, e: Event) {
    match e
    case ContainerExit(id) => w.s.live[id] > 0
    case Completion(f, _, _) => Due(w.s, f)
    case Tick(to) => w.now <= to
    case _ => true
  }

  ghost function Next(cfg: Config, w: World, e: Event): (w': World)
    requires Inv(cfg, w.s) && Possible(w, e)
    ensures Inv(cfg, w'.s)
  {
    hide Inv, AdmitFrom, Complete;
    match e
    case Admit(paused) =>
      if paused || !w.admitting || w.killed then w
      else
        Steps.OrderListsJobs(cfg, w.s);
        Steps.AdmitKeepsInv(cfg, w.s, w.now, w.s.run.order);
        w.(s := AdmitFrom(cfg, w.s, w.now, w.s.run.order))
    case ContainerExit(id) =>
      ExitKeepsInv(cfg, w.s, id);
      w.(s := w.s.(live := w.s.live - multiset{id}))
    case Completion(f, end, cls) =>
      CompleteKeepsInv(cfg, w.s, w.now, f, end, cls, w.killed);
      InFlightHasAttempts(w.s.run.jobs, f);
      w.(s := Complete(cfg, w.s, w.now, f, end, cls, w.killed))
    case Tick(to) => w.(now := to)
    case StopAdmission => w.(admitting := false)
    case KillJobs => w.(killed := true)
  }

  lemma ExitKeepsInv(cfg: Config, s: Sched, id: string)
    requires Inv(cfg, s)
    ensures Inv(cfg, s.(live := s.live - multiset{id}))
  {
    hide ValidRun;
    var t := s.(live := s.live - multiset{id});
    assert Accounts(cfg, t) && Flown(t) && LiveOK(t.run.jobs, t.live);
    hide Accounts, Flown, LiveOK;
    hide WithinBudgets;
    Steps.SmallerCountersKeepBudgets(cfg, s, t);
  }

  ghost predicate Trace(cfg: Config, w: World, es: seq<Event>)
    requires Inv(cfg, w.s)
    decreases |es|
  {
    es == [] || (Possible(w, es[0]) && Trace(cfg, Next(cfg, w, es[0]), es[1..]))
  }

  // The state a sequence of events leads to.
  ghost function After(cfg: Config, w: World, es: seq<Event>): (w': World)
    requires Inv(cfg, w.s) && Trace(cfg, w, es)
    ensures Inv(cfg, w'.s)
    decreases |es|
  {
    if es == [] then w else After(cfg, Next(cfg, w, es[0]), es[1..])
  }

  // ------------------------------------------------- one job along one event

  ghost predicate SameJob(s: Sched, t: Sched, id: string) {
    && id in s.run.jobs && id in t.run.jobs && t.run.jobs[id] == s.run.jobs[id]
    && (StockoutKey(id) in s.run.cooldowns <==> StockoutKey(id) in t.run.cooldowns)
  }

  lemma SameJobKeepsLaunches(cfg: Config, s: Sched, t: Sched, id: string, killed: bool)
    requires ValidConfig(cfg) && SameJob(s, t, id)
    ensures LaunchesLeft(cfg, t.run, id, killed) == LaunchesLeft(cfg, s.run, id, killed)
  {
  }

  // Attempts made and launches left, which admission trades one for one.
  function Allowance(cfg: Config, run: RunData, id: string, killed: bool): int
    requires ValidConfig(cfg) && id in run.jobs
  {
    |run.jobs[id].attempts| + LaunchesLeft(cfg, run, id, killed)
  }

  lemma {:induction false} AdmitUsesLaunches(cfg: Config, s: Sched, now: int, ids: seq<string>, id: string)
    requires Inv(cfg, s) && id in s.run.jobs && forall i :: i in ids ==> i in s.run.jobs
    ensures Allowance(cfg, AdmitFrom(cfg, s, now, ids).run, id, false) == Allowance(cfg, s.run, id, false)
    decreases |ids|
  {
    assert ValidConfig(cfg);
    hide AdmitOne, Inv, Allowance, ValidConfig, AdmitFrom;
    Steps.AdmitFromStep(cfg, s, now, ids);
    if ids != [] && !(s.run.jobs[ids[0]].status == Queued && s.running >= cfg.containerCap) {
      AdmitOneOnJob(cfg, s, now, ids[0], id);
      Steps.AdmitOneKeepsInv(cfg, s, now, ids[0]);
      var t := AdmitOne(cfg, s, now, ids[0]);
      AdmitUsesLaunches(cfg, t, now, ids[1..], id);
    }
  }

  lemma AdmitOneOnJob(cfg: Config, s: Sched, now: int, turn: string, id: string)
    requires Inv(cfg, s) && id in s.run.jobs && turn in s.run.jobs
    ensures Allowance(cfg, AdmitOne(cfg, s, now, turn).run, id, false) == Allowance(cfg, s.run, id, false)
  {
    hide AdmitOne, LaunchesLeft, ValidRun, Accounts, Counter, WithinBudgets, Flown, LiveOK, SavedAgrees;
    AdmitOneChanges(cfg, s, now, turn);
    if id == turn {
      AdmitOneUsesLaunch(cfg, s, now, id);
    } else {
      SameJobKeepsLaunches(cfg, s, AdmitOne(cfg, s, now, turn), id, false);
    }
  }

  lemma LaunchesLeftNonNegative(cfg: Config, s: Sched, id: string, killed: bool)
    requires Inv(cfg, s) && id in s.run.jobs
    ensures LaunchesLeft(cfg, s.run, id, killed) >= 0
    ensures s.run.jobs[id].status.Queued? && !killed ==> LaunchesLeft(cfg, s.run, id, killed) >= 1
  {
    var rec := s.run.jobs[id];
    assert SweepOK(cfg, s.run.cooldowns, id, rec) by { SweepOf(cfg, s, id); }
    hide Inv, Feasible, StockoutsLeft, OtherRetriesLeft, Untried;
    if rec.status.Queued? || rec.status.Running? {
      StockoutsLeftPositive(cfg, s.run.cooldowns, id, rec);
    }
  }

  lemma SweepOf(cfg: Config, s: Sched, id: string)
    requires Inv(cfg, s) && id in s.run.jobs
    ensures SweepOK(cfg, s.run.cooldowns, id, s.run.jobs[id])
  {
    hide SweepOK, ValidRecord, Accounts, WithinBudgets, Flown, LiveOK, SavedAgrees;
  }

  // Along any event a job's attempts and its launches left never add up to more.
  lemma NextUsesLaunches(cfg: Config, w: World, e: Event, id: string)
    requires Inv(cfg, w.s) && Possible(w, e) && id in w.s.run.jobs
    ensures var w' := Next(cfg, w, e);
      && id in w'.s.run.jobs && w'.s.run.jobs[id].job == w.s.run.jobs[id].job
      && Allowance(cfg, w'.s.run, id, w'.killed) <= Allowance(cfg, w.s.run, id, w.killed)
  {
    hide AdmitFrom, Complete, Inv, Left, Due;
    match e
    case Admit(paused) =>
      if !(paused || !w.admitting || w.killed) {
        Steps.OrderListsJobs(cfg, w.s);
        AdmitUsesLaunches(cfg, w.s, w.now, w.s.run.order, id);
        AdmitPasses(cfg, w.s, w.now, w.s.run.order);
      }
    case Completion(f, end, cls) => CompletionUsesLaunches(cfg, w.s, w.now, f, end, cls, w.killed, id);
    case KillJobs => LaunchesLeftNonNegative(cfg, w.s, id, w.killed);
    case _ =>
  }

  lemma CompletionUsesLaunches(
      cfg: Config, s: Sched, now: int, f: Flight, end: int, cls: Class, killed: bool, id: string)
    requires Inv(cfg, s) && Due(s, f) && id in s.run.jobs
    ensures InFlight(s.run.jobs, f)
    ensures var t := Complete(cfg, s, now, f, end, cls, killed);
      && id in t.run.jobs && t.run.jobs[id].job == s.run.jobs[id].job
      && |t.run.jobs[id].attempts| == |s.run.jobs[id].attempts|
      && LaunchesLeft(cfg, t.run, id, killed) <= LaunchesLeft(cfg, s.run, id, killed)
  {
    hide Complete, LaunchesLeft, Accounts, ValidRun, WithinBudgets, LiveOK, SavedAgrees, RecordStockout, Charge;
    hide Counter;
    DueIsInFlight(s, f);
    InFlightHasAttempts(s.run.jobs, f);
    hide InFlight, Flown;
    CompleteEffect(cfg, s, now, f, end, cls, killed);
    if id == f.id {
      CompleteUsesLaunch(cfg, s, now, f, end, cls, killed);
    } else {
      SameJobKeepsLaunches(cfg, s, Complete(cfg, s, now, f, end, cls, killed), id, killed);
    }
  }

  lemma {:induction false} TraceUsesLaunches(cfg: Config, w: World, es: seq<Event>, id: string)
    requires Inv(cfg, w.s) && Trace(cfg, w, es) && id in w.s.run.jobs
    ensures var w' := After(cfg, w, es);
      && id in w'.s.run.jobs
      && Allowance(cfg, w'.s.run, id, w'.killed) <= Allowance(cfg, w.s.run, id, w.killed)
    decreases |es|
  {
    assert ValidConfig(cfg);
    hide Next, Possible, Allowance, Inv, ValidConfig;
    if es != [] {
      NextUsesLaunches(cfg, w, es[0], id);
      TraceUsesLaunches(cfg, Next(cfg, w, es[0]), es[1..], id);
    }
  }

  // From any saved history and along any run, a job is launched at most
  // stockout * |feasible zones| + quota + timeout + infra + error + failure - 4
  // times, aborted launches included.
  lemma LaunchesBounded(cfg: Config, w: World, es: seq<Event>, id: string)
    requires Inv(cfg, w.s) && Trace(cfg, w, es) && id in w.s.run.jobs
    ensures var w' := After(cfg, w, es);
      && id in w'.s.run.jobs
      && |w'.s.run.jobs[id].attempts| - |w.s.run.jobs[id].attempts| <= LaunchBound(cfg, w.s.run.jobs[id].job)
  {
    hide Trace, After, Left;
    TraceUsesLaunches(cfg, w, es, id);
    LaunchesLeftNonNegative(cfg, After(cfg, w, es).s, id, After(cfg, w, es).killed);
    Steps.JobsAreValid(cfg, w.s, id);
    LeftWithinBound(cfg, w.s.run.cooldowns, id, w.s.run.jobs[id]);
    assert ValidConfig(cfg);
    hide Inv, Feasible;
    TimesMonotone(0, cfg.retries.stockout, |Feasible(cfg, w.s.run.jobs[id].job)|);
  }
}
