// The scheduler with its state updated in place, method by method, each proved
// to compute what Spec.dfy defines.
module Scheduling {
  import opened Names
  import opened Jobs
  import opened Budgets
  import opened Spec
  import opened Accounting
  import opened Invariants
  import opened State
  import opened Migration
  import opened ResumeSpec
  import opened Runs
  import opened Liveness
  import opened Completions
  import Picking
  import Steps

  class Scheduler {
    const cfg: Config
    const st: RunState
    ghost var saved: RunData
    var running: int
    var perShape: map<string, int>
    var usedCPU: map<string, map<string, int>>
    var usedNets: int
    var usedSubnets: int
    var hits: map<CooldownKey, nat>
    var penalty: map<(string, string), int>
    var zoneRR: map<string, nat>
    ghost var flights: multiset<Flight>
    ghost var live: multiset<string>

    // A scheduler that takes over a run; old cooldowns are migrated.
    constructor (cfg: Config, st: RunState, ghost onDisk: RunData, ghost containers: multiset<string>, now: int)
      requires st.Valid()
      modifies st`cooldowns, st`run
      ensures Valid() && this.cfg == cfg && this.st == st
      ensures IsMigration(old(st.run), now, st.run.cooldowns)
      ensures st.run == old(st.run).(cooldowns := st.run.cooldowns)
      ensures View() == NewSched(st.run, containers).(saved := onDisk)
    {
      hide RunState.Valid, RunState.ValidBut, IsMigration;
      this.cfg, this.st, saved, live := cfg, st, onDisk, containers;
      running, perShape, usedCPU, usedNets, usedSubnets := 0, map[], map[], 0, 0;
      hits, penalty, zoneRR, flights := map[], map[], map[], multiset{};
      new;
      var table := Migrate(st, now);
      st.SetCooldowns(table);
    }

    ghost predicate Valid()
      reads st, st.jobs.Values
    {
      st.Valid()
    }

    ghost function View(): Sched
      reads this, st
    {
      Sched(st.run, saved, running, perShape, usedCPU, usedNets, usedSubnets,
            hits, penalty, zoneRR, flights, live)
    }

    lemma KnownRecord(id: string)
      requires Valid() && id in st.jobs
      ensures id in st.run.jobs && st.jobs[id].Value() == st.run.jobs[id] && st.jobs[id].job == st.run.jobs[id].job
      ensures st.jobs[id].swept == st.run.jobs[id].swept && st.cooldowns == st.run.cooldowns
    {
    }

    lemma ViewParts()
      ensures View().run == st.run && View().zoneRR == zoneRR
    {
    }

    // ---------------------------------------------------------------- headroom

    method QueuedRemaining() returns (n: nat)
      requires Valid()
      ensures n == |InOrder(st.order, QueuedIds(st.run))|
    {
      n := 0;
      for i := 0 to |st.order|
        invariant n == |InOrder(st.order[..i], QueuedIds(st.run))|
      {
        assert st.order[..i + 1][..i] == st.order[..i];
        assert st.order[i] in st.order;
        if st.jobs[st.order[i]].status == Queued {
          n := n + 1;
        }
      }
      assert st.order[..|st.order|] == st.order;
    }

    method AllowedFor(region: string, key: string, now: int) returns (a: int)
      ensures a == Allowed(cfg, View(), now, region, key)
    {
      a := Truncate(LimitOf(cfg.regions, region, key) as real * cfg.safetyFactor);
      if (key, region) in penalty && now < penalty[(key, region)] {
        a := if a >= 0 then a / 2 else -((-a) / 2);
      }
    }

    method HeadroomFor(job: Job, region: string, now: int) returns (h: int)
      ensures h == Headroom(cfg, View(), now, job, region)
    {
      hide Allowed;
      var keys := BudgetKeys(cfg, job, region);
      h := MAX_HEADROOM;
      for i := 0 to |keys|
        invariant h == HeadroomOver(cfg, View(), now, region, keys[..i])
      {
        assert keys[..i + 1][..i] == keys[..i];
        var allowed := AllowedFor(region, keys[i], now);
        var free := allowed - LimitOf(usedCPU, region, keys[i]);
        if free < h {
          h := free;
        }
      }
      assert keys[..|keys|] == keys;
    }

    // ---------------------------------------------------------------- pickZone

    // The candidate zones of one pass, grouped by region.
    method GroupCandidates(id: string, avoid: string, skipLast: bool, now: int)
      returns (regions: map<string, seq<string>>, order: seq<string>)
      requires Valid() && id in st.jobs
      ensures var cands := Candidates(st.run, now, st.run.jobs[id], avoid, skipLast, st.run.jobs[id].job.zones);
        && order == RegionsOf(cands)
        && forall r :: GetOr(regions, r, []) == ZonesIn(cands, r)
    {
      hide RunState.Valid, RunState.ValidBut, Candidates, RegionsOf, ZonesIn, ZoneRegion, Cooling;
      KnownRecord(id);
      regions, order := map[], [];
      var rec := st.jobs[id];
      var zones := rec.job.zones;
      ghost var run, r0 := st.run, st.run.jobs[id];
      ghost var cands: seq<string> := [];
      NoCandidates(run, now, r0, avoid, skipLast);
      for i := 0 to |zones|
        invariant cands == Candidates(run, now, r0, avoid, skipLast, zones[..i])
        invariant order == RegionsOf(cands)
        invariant forall r :: GetOr(regions, r, []) == ZonesIn(cands, r)
      {
        var z := zones[i];
        assert zones[..i + 1] == zones[..i] + [z];
        CandidatesStep(run, now, r0, avoid, skipLast, zones[..i], z);
        if !Skipped(rec.job, rec.swept, st.cooldowns, now, avoid, skipLast, z) {
          var r := ZoneRegion(z);
          GroupsStep(cands, z);
          if |GetOr(regions, r, [])| == 0 {
            order := order + [r];
          }
          regions := regions[r := GetOr(regions, r, []) + [z]];
          cands := cands + [z];
        }
      }
      assert zones[..|zones|] == zones;
    }

    method BestOf(job: Job, regions: seq<string>, now: int) returns (best: string)
      ensures best == BestRegion(cfg, View(), now, job, regions).0
    {
      hide Headroom;
      var bestFree := -1;
      best := "";
      for i := 0 to |regions|
        invariant (best, bestFree) == BestRegion(cfg, View(), now, job, regions[..i])
      {
        assert regions[..i + 1][..i] == regions[..i];
        var free := HeadroomFor(job, regions[i], now);
        if free >= job.cpuCost && free > bestFree {
          best, bestFree := regions[i], free;
        }
      }
      assert regions[..|regions|] == regions;
    }

    method ChooseIn(id: string, avoid: string, skipLast: bool, now: int) returns (zone: string)
      requires Valid() && id in st.jobs
      modifies this`zoneRR
      ensures zone == old(ChooseZone(cfg, View(), now, st.run.jobs[id], avoid, skipLast))
      ensures zoneRR == if zone == "" then old(zoneRR)
        else old(zoneRR)[ZoneRegion(zone) := GetOr<string, nat>(old(zoneRR), ZoneRegion(zone), 0) + 1]
    {
      hide *;
      KnownRecord(id);
      ViewParts();
      ghost var s, rec := View(), st.run.jobs[id];
      var regions, order := GroupCandidates(id, avoid, skipLast, now);
      var best := BestOf(st.jobs[id].job, Sort(order), now);
      ghost var cands := Candidates(s.run, now, rec, avoid, skipLast, rec.job.zones);
      ChooseZoneParts(cfg, s, now, rec, avoid, skipLast);
      zone := "";
      if best != "" {
        var zones := GetOr(regions, best, []);
        var turn := GetOr<string, nat>(zoneRR, best, 0);
        zone := zones[turn % |zones|];
        zoneRR := zoneRR[best := turn + 1];
      }
    }

    // An expired sweep cooldown is dropped and the job's sweep starts afresh.
    method BeginSweep(id: string, now: int) returns (cooling: bool)
      requires Valid() && id in st.jobs
      modifies st`cooldowns, st`run, st.Rec(id)`swept
      ensures Valid() && cooling == old(Cooling(st.run.cooldowns, StockoutKey(id), now))
      ensures st.run == StartSweep(old(st.run), now, id) && (cooling ==> st.run == old(st.run))
    {
      var key := StockoutKey(id);
      cooling := Cooling(st.cooldowns, key, now);
      if key in st.cooldowns && !cooling {
        st.cooldowns := st.cooldowns - {key};
        st.Rec(id).swept := {};
        st.Sync(id);
      }
    }

    method PickZone(id: string, avoid: string, now: int) returns (zone: string)
      requires Valid() && id in st.jobs
      modifies this`zoneRR, st`cooldowns, st`run, st.Rec(id)`swept
      ensures Valid()
      ensures id in old(st.run).jobs && (zone, View()) == Spec.PickZone(cfg, old(View()), now, id, avoid)
    {
      hide RunState.Valid, RunState.ValidBut, ChooseZone, StartSweep, ZoneRegion;
      st.Known(id);
      ghost var s := View();
      zone := "";
      var cooling := BeginSweep(id, now);
      ghost var s1 := s.(run := StartSweep(s.run, now, id));
      if !cooling {
        assert View() == s1;
        zone := ChooseIn(id, avoid, true, now);
        if zone == "" {
          assert View() == s1;
          zone := ChooseIn(id, avoid, false, now);
        }
        assert View() == s1.(zoneRR := zoneRR);
      }
    }

    // ------------------------------------------------------------ admit, launch

    method AddUsage(region: string, keys: seq<string>, amount: int)
      modifies this`usedCPU
      ensures usedCPU == AddCPU(old(usedCPU), region, keys, amount)
    {
      ghost var used := usedCPU;
      if region !in usedCPU {
        usedCPU := usedCPU[region := map[]];
      }
      for i := 0 to |keys|
        invariant usedCPU == AddCPU(used, region, keys[..i], amount)
        invariant region in usedCPU
      {
        assert keys[..i + 1][..i] == keys[..i];
        var row := usedCPU[region];
        usedCPU := usedCPU[region := row[keys[i] := GetOr(row, keys[i], 0) + amount]];
      }
      assert keys[..|keys|] == keys;
    }

    method ChargeJob(job: Job, region: string, sign: int)
      modifies this`usedCPU, this`usedNets, this`usedSubnets, this`running, this`perShape
      ensures View() == Charge(cfg, old(View()), job, region, sign)
    {
      hide BudgetKeys, AddCPU;
      AddUsage(region, BudgetKeys(cfg, job, region), sign * job.cpuCost);
      usedNets := usedNets + sign * job.networks;
      usedSubnets := usedSubnets + sign * job.subnets;
      running := running + sign;
      perShape := perShape[job.shape := GetOr(perShape, job.shape, 0) + sign];
    }

    method LaunchIn(id: string, zone: string, now: int)
      requires Valid() && id in st.jobs
      modifies this, st`run, st.Rec(id)`status, st.Rec(id)`attempts
      ensures Valid()
      ensures id in old(st.run).jobs && View() == Launch(cfg, old(View()), now, id, zone)
    {
      hide Charge, RunState.Valid, RunState.ValidBut;
      st.Known(id);
      ChargeJob(st.Rec(id).job, ZoneRegion(zone), 1);
      st.Begin(id, zone, now);
      saved := st.run;
      flights := flights + multiset{Flight(id, zone, now)};
      live := live + multiset{id};
    }

    // The admission loop.
    method Admit(admitting: bool, killed: bool, paused: bool, now: int)
      requires Valid()
      modifies this, st, st.jobs.Values
      ensures Valid() && st.jobs == old(st.jobs)
      ensures View().run.jobs.Keys == old(View()).run.jobs.Keys
      ensures forall id :: id in old(st.run).order ==> id in old(st.run).jobs
      ensures View() == if !admitting || killed || paused then old(View())
        else AdmitFrom(cfg, old(View()), now, old(st.run).order)
    {
      hide RunState.Valid, RunState.ValidBut, AdmitFrom, Launch, Spec.PickZone;
      st.KnownAll();
      if !admitting || killed || paused {
        return;
      }
      ghost var s := View();
      var order := st.order;
      for i := 0 to |order|
        invariant Valid() && st.jobs == old(st.jobs) && st.run.jobs.Keys == s.run.jobs.Keys
        invariant forall id :: id in order ==> id in st.jobs && id in st.run.jobs
        invariant AdmitFrom(cfg, View(), now, order[i..]) == AdmitFrom(cfg, s, now, order)
      {
        var id := order[i];
        var rec := st.Rec(id);
        st.Known(id);
        Steps.AdmitFromStep(cfg, View(), now, order[i..]);
        assert order[i..][0] == id && order[i..][1..] == order[i + 1..];
        if rec.status == Queued && running >= cfg.containerCap {
          return;
        }
        AdmitTurn(id, now);
      }
      Steps.AdmitFromStep(cfg, View(), now, []);
    }

    // One turn of it, the container cap not being reached.
    method AdmitTurn(id: string, now: int)
      requires Valid() && id in st.jobs
      modifies this, st`cooldowns, st`run, st.Rec(id)
      ensures Valid() && id in old(st.run).jobs && View() == AdmitOne(cfg, old(View()), now, id)
    {
      hide RunState.Valid, RunState.ValidBut, Launch, Spec.PickZone;
      st.Known(id);
      var rec := st.Rec(id);
      if rec.status != Queued {
        return;
      }
      var j := rec.job;
      if j.maxParallel > 0 && GetOr(perShape, j.shape, 0) >= j.maxParallel {
        return;
      }
      if usedNets + j.networks > cfg.networks || usedSubnets + j.subnets > cfg.subnetworks {
        return;
      }
      var zone := PickZone(id, AvoidZone(rec.attempts), now);
      if zone != "" {
        LaunchIn(id, zone, now);
      }
    }

    // ------------------------------------------------------------- completions

    // Whether every zone the job could ever fit has been ruled out.
    method SweepIsComplete(rec: JobRecord) returns (done: bool)
      ensures done <==> Swept(cfg, rec.Value())
    {
      hide Fits, ZoneRegion;
      for i := 0 to |rec.job.zones|
        invariant forall k :: 0 <= k < i && Fits(cfg, rec.job, ZoneRegion(rec.job.zones[k])) ==>
            rec.job.zones[k] in rec.swept
      {
        var z := rec.job.zones[i];
        if Fits(cfg, rec.job, ZoneRegion(z)) && z !in rec.swept {
          return false;
        }
      }
      return true;
    }

    // A failure rules out this job's zone; completed sweeps drive the back-off.
    method RecordStockout(id: string, zone: string, now: int)
      requires Valid() && id in st.jobs
      modifies st`cooldowns, st`run, st.Rec(id)`swept, st.Rec(id)`status, st.Rec(id)`rounds
      ensures Valid() && id in old(st.run).jobs
      ensures st.run == Spec.RecordStockout(cfg, old(st.run), now, id, zone)
    {
      hide RunState.Valid, RunState.ValidBut, Swept, SweepDelay;
      st.Known(id);
      var rec := st.Rec(id);
      rec.swept := rec.swept + {zone};
      rec.status := Queued;
      var done := SweepIsComplete(rec);
      if done {
        rec.rounds := rec.rounds + 1;
        if rec.rounds >= cfg.retries.stockout {
          rec.status := FailedInfra;
        } else {
          st.cooldowns := st.cooldowns[StockoutKey(id) := now + SweepDelay(cfg, rec.rounds)];
        }
      }
      st.Touched(id);
      st.Sync(id);
    }

    method BumpQuotaCooldown(budgetKey: string, region: string, now: int)
      requires Valid()
      modifies this`hits, st`cooldowns, st`run
      ensures Valid() && st.run.jobs == old(st.run.jobs)
      ensures View() == BumpCooldown(cfg, old(View()), now, QuotaKey(budgetKey, region))
    {
      hide RunState.Valid, RunState.ValidBut, Wrap64, Pow2;
      st.KnownAll();
      var key := QuotaKey(budgetKey, region);
      if Cooling(st.cooldowns, key, now) {
        return;
      }
      var count := GetOr(hits, key, 0) + 1;
      hits := hits[key := count];
      var capped := if count > 6 then 6 else count;
      st.SetCooldowns(st.cooldowns[key := now + Wrap64(cfg.retries.cooldownBase * Pow2(capped - 1))]);
    }

    method CountAttempts(id: string, cls: Class) returns (n: nat)
      requires Valid() && id in st.jobs
      ensures id in st.run.jobs && n == CountClass(st.run.jobs[id].attempts, cls)
    {
      hide RunState.Valid, RunState.ValidBut;
      st.Known(id);
      n := 0;
      var attempts := st.Rec(id).attempts;
      for i := 0 to |attempts|
        invariant n == CountClass(attempts[..i], cls)
      {
        assert attempts[..i + 1][..i] == attempts[..i];
        if attempts[i].outcome == Classified(cls) {
          n := n + 1;
        }
      }
      assert attempts[..|attempts|] == attempts;
    }

    method RequeueUnless(id: string, cls: Class, cap: int, giveUp: Status)
      requires Valid() && id in st.jobs
      modifies st`run, st.Rec(id)`status
      ensures Valid() && id in old(st.run).jobs
      ensures View() == SetRecord(old(View()), id,
        old(st.run).jobs[id].(status := RequeueOr(old(st.run).jobs[id].attempts, cls, cap, giveUp)))
    {
      hide RunState.Valid, RunState.ValidBut, CountClass;
      st.Known(id);
      var n := CountAttempts(id, cls);
      st.SetStatus(id, if n >= cap then giveUp else Queued);
    }

    method SettleClass(id: string, zone: string, cls: Class, now: int)
      requires Valid() && id in st.jobs
      modifies this`hits, this`penalty, st`cooldowns, st`run, st.Rec(id)
      ensures Valid() && id in old(st.run).jobs
      ensures View() == Settle(cfg, old(View()), now, id, zone, cls)
    {
      hide RunState.Valid, RunState.ValidBut, Spec.RecordStockout, RequeueOr, BumpCooldown;
      st.Known(id);
      match cls
      case Pass => st.SetStatus(id, Passed);
      case Fail => RequeueUnless(id, Fail, cfg.retries.failure + 1, FailedReal);
      case Stockout => RecordStockout(id, zone, now);
      case Quota =>
        var budgetKey := st.Rec(id).job.budgetKey;
        BumpQuotaCooldown(budgetKey, ZoneRegion(zone), now);
        penalty := penalty[(budgetKey, ZoneRegion(zone)) := now + QUOTA_PENALTY];
        RequeueUnless(id, Quota, cfg.retries.quota, FailedInfra);
      case Timeout => RequeueUnless(id, Timeout, cfg.retries.timeout, FailedInfra);
      case Infra => RequeueUnless(id, Infra, cfg.retries.infra, FailedInfra);
      case Error => RequeueUnless(id, Error, cfg.retries.error, FailedInfra);
    }

    method Release(f: Flight)
      requires Valid() && f.id in st.jobs
      modifies this`usedCPU, this`usedNets, this`usedSubnets, this`running, this`perShape, this`flights
      ensures f.id in st.run.jobs && View() == Released(cfg, old(View()), f)
    {
      hide RunState.Valid, RunState.ValidBut, Charge;
      KnownRecord(f.id);
      ChargeJob(st.Rec(f.id).job, ZoneRegion(f.zone), -1);
      flights := flights - multiset{f};
    }

    // The attempt of a killed run counts against no cap.
    method Abort(id: string, end: int)
      requires Valid() && id in st.jobs && |st.jobs[id].attempts| > 0
      modifies st`run, st.Rec(id)
      ensures Valid() && id in old(st.run).jobs && |old(st.run).jobs[id].attempts| > 0
      ensures View() == SetRecord(old(View()), id, CloseAttempt(old(st.run).jobs[id], end, Aborted).(status := Queued))
    {
      hide RunState.Valid, RunState.ValidBut, CloseAttempt;
      st.Known(id);
      st.Close(id, end, Aborted);
      st.SetStatus(id, Queued);
    }

    method Classify(id: string, zone: string, end: int, cls: Class, now: int)
      requires Valid() && id in st.jobs && |st.jobs[id].attempts| > 0
      modifies this`hits, this`penalty, st`cooldowns, st`run, st.Rec(id)
      ensures Valid() && id in old(st.run).jobs && |old(st.run).jobs[id].attempts| > 0
      ensures var closed := CloseAttempt(old(st.run).jobs[id], end, Classified(cls));
        View() == Settle(cfg, SetRecord(old(View()), id, closed), now, id, zone, cls)
    {
      hide RunState.Valid, RunState.ValidBut, CloseAttempt, Settle;
      st.Known(id);
      st.Close(id, end, Classified(cls));
      SettleClass(id, zone, cls, now);
    }

    method HandleCompletion(f: Flight, end: int, cls: Class, killed: bool, now: int)
      requires Valid() && f.id in st.jobs && |st.jobs[f.id].attempts| > 0
      modifies this, st`cooldowns, st`run, st.Rec(f.id)
      ensures Valid() && f.id in old(st.run).jobs && |old(st.run).jobs[f.id].attempts| > 0
      ensures View() == Complete(cfg, old(View()), now, f, end, cls, killed)
    {
      hide RunState.Valid, RunState.ValidBut, Settle, CloseAttempt, SetRecord, Complete, Released;
      KnownRecord(f.id);
      ViewParts();
      ghost var s := View();
      CompleteParts(cfg, s, now, f, end, cls, killed);
      Release(f);
      if killed {
        Abort(f.id, end);
      } else {
        Classify(f.id, f.zone, end, cls, now);
      }
      saved := st.run;
    }

    // --------------------------------------------------------------------- Run

    ghost function WorldNow(now: int, admitting: bool, killed: bool): World
      reads this, st
    {
      World(View(), now, admitting, killed)
    }

    // The scheduler's part in one event.
    method React(e: Event, now: int, admitting: bool, killed: bool)
      returns (now': int, admitting': bool, killed': bool)
      requires Valid() && Inv(cfg, View()) && Possible(WorldNow(now, admitting, killed), e) && !e.Admit?
      modifies this, st, st.jobs.Values
      ensures Valid() && st.jobs == old(st.jobs)
      ensures Inv(cfg, old(View())) && Possible(old(WorldNow(now, admitting, killed)), e)
      ensures WorldNow(now', admitting', killed') == Next(cfg, old(WorldNow(now, admitting, killed)), e)
    {
      hide RunState.Valid, RunState.ValidBut, Complete, Inv, Due;
      now', admitting', killed' := now, admitting, killed;
      match e
      case ContainerExit(id) => live := live - multiset{id};
      case Completion(f, end, cls) =>
        CompleteKeepsInv(cfg, View(), now, f, end, cls, killed);
        InFlightHasAttempts(View().run.jobs, f);
        st.KnownAll();
        st.Known(f.id);
        HandleCompletion(f, end, cls, killed, now);
      case Tick(to) => now' := to;
      case StopAdmission => admitting' := false;
      case KillJobs => killed' := true;
    }

    // The test at the end of an admission pass.
    method Finished(admitting: bool, killed: bool, ghost now: int) returns (done: bool)
      requires Valid() && Inv(cfg, View())
      ensures done <==> Returns(WorldNow(now, admitting, killed))
    {
      hide RunState.Valid, RunState.ValidBut, Inv;
      st.KnownAll();
      Steps.OrderListsJobs(cfg, View());
      var n := QueuedRemaining();
      NoneQueued(st.order, st.run);
      done := running == 0 && (n == 0 || !admitting || killed);
    }

    // The event loop. The script says what the loop meets: whether the run is
    // paused, what happens outside, and what wakes it from its wait.
    method Run(script: seq<Turn>, start: int) returns (done: bool, now: int, admitting: bool, killed: bool)
      requires Valid() && Inv(cfg, View()) && Plays(cfg, WorldNow(start, true, false), script)
      modifies this, st, st.jobs.Values
      ensures Valid() && Inv(cfg, old(View())) && Plays(cfg, old(WorldNow(start, true, false)), script)
      ensures (WorldNow(now, admitting, killed), done) == RunTo(cfg, old(WorldNow(start, true, false)), script)
    {
      hide RunState.Valid, RunState.ValidBut, Inv, Next, Possible, Trace, After, Returns;
      done, now, admitting, killed := false, start, true, false;
      ghost var w := WorldNow(start, true, false);
      for i := 0 to |script|
        invariant Valid() && st.jobs == old(st.jobs) && Inv(cfg, View())
        invariant Plays(cfg, WorldNow(now, admitting, killed), script[i..])
        invariant RunTo(cfg, WorldNow(now, admitting, killed), script[i..]) == RunTo(cfg, w, script)
      {
        ghost var before := WorldNow(now, admitting, killed);
        assert script[i..][0] == script[i] && script[i..][1..] == script[i + 1..];
        AdmitEvent(script[i].paused, now, admitting, killed);
        done := Finished(admitting, killed, now);
        if done {
          saved := st.run;
          return;
        }
        now, admitting, killed := Meet(script[i].outside + [script[i].wake], now, admitting, killed);
      }
    }

    method AdmitEvent(paused: bool, now: int, admitting: bool, killed: bool)
      requires Valid() && Inv(cfg, View())
      modifies this, st, st.jobs.Values
      ensures Valid() && st.jobs == old(st.jobs)
      ensures Inv(cfg, old(View())) && Possible(old(WorldNow(now, admitting, killed)), Event.Admit(paused))
      ensures WorldNow(now, admitting, killed) == Next(cfg, old(WorldNow(now, admitting, killed)), Event.Admit(paused))
    {
      hide RunState.Valid, RunState.ValidBut, Inv, AdmitFrom;
      Admit(admitting, killed, paused, now);
    }

    method Meet(es: seq<Event>, start: int, admitting0: bool, killed0: bool)
      returns (now: int, admitting: bool, killed: bool)
      requires Valid() && Inv(cfg, View()) && Trace(cfg, WorldNow(start, admitting0, killed0), es)
      requires forall e :: e in es ==> !e.Admit?
      modifies this, st, st.jobs.Values
      ensures Valid() && st.jobs == old(st.jobs)
      ensures Inv(cfg, old(View())) && Trace(cfg, old(WorldNow(start, admitting0, killed0)), es)
      ensures WorldNow(now, admitting, killed) == After(cfg, old(WorldNow(start, admitting0, killed0)), es)
    {
      hide RunState.Valid, RunState.ValidBut, Inv, Next, Possible;
      now, admitting, killed := start, admitting0, killed0;
      ghost var w := WorldNow(now, admitting, killed);
      for i := 0 to |es|
        invariant Valid() && st.jobs == old(st.jobs) && Inv(cfg, View())
        invariant Trace(cfg, WorldNow(now, admitting, killed), es[i..])
        invariant After(cfg, WorldNow(now, admitting, killed), es[i..]) == After(cfg, w, es)
      {
        assert es[i..][0] == es[i] && es[i..][1..] == es[i + 1..];
        now, admitting, killed := React(es[i], now, admitting, killed);
      }
    }
  }

  // What happens between two admission passes: events outside the loop, then
  // the one that wakes it.
  datatype Turn = Turn(paused: bool, outside: seq<Event>, wake: Event)

  ghost predicate Plays(cfg: Config, w: World, script: seq<Turn>)
    requires Inv(cfg, w.s)
    decreases |script|
  {
    script == [] ||
    var w1 := Next(cfg, w, Event.Admit(script[0].paused));
    var es := script[0].outside + [script[0].wake];
    Returns(w1) ||
    ((forall e :: e in es ==> !e.Admit?) && Trace(cfg, w1, es) && Plays(cfg, After(cfg, w1, es), script[1..]))
  }

  // Where the loop gets to, and whether it returned, saving the state.
  ghost function RunTo(cfg: Config, w: World, script: seq<Turn>): (World, bool)
    requires Inv(cfg, w.s) && Plays(cfg, w, script)
    decreases |script|
  {
    if script == [] then (w, false)
    else
      var w1 := Next(cfg, w, Event.Admit(script[0].paused));
      if Returns(w1) then (w1.(s := Persist(w1.s)), true)
      else RunTo(cfg, After(cfg, w1, script[0].outside + [script[0].wake]), script[1..])
  }

  lemma {:induction false} TraceAppend(cfg: Config, w: World, es: seq<Event>, more: seq<Event>)
    requires Inv(cfg, w.s) && Trace(cfg, w, es) && Trace(cfg, After(cfg, w, es), more)
    ensures Trace(cfg, w, es + more) && After(cfg, w, es + more) == After(cfg, After(cfg, w, es), more)
    decreases |es|
  {
    hide Inv, Next, Possible;
    if es == [] {
      assert es + more == more;
    } else {
      assert (es + more)[0] == es[0] && (es + more)[1..] == es[1..] + more;
      TraceAppend(cfg, Next(cfg, w, es[0]), es[1..], more);
    }
  }

  // The loop is one of the runs all the results about runs speak of: it leads
  // where some sequence of events leads, and has returned only where it may.
  lemma {:induction false} LoopIsARun(cfg: Config, w: World, script: seq<Turn>)
    requires Inv(cfg, w.s) && Plays(cfg, w, script)
    ensures exists es ::
      && Trace(cfg, w, es)
      && var v := After(cfg, w, es);
         RunTo(cfg, w, script) == (v, false) || (RunTo(cfg, w, script) == (v.(s := Persist(v.s)), true) && Returns(v))
    decreases |script|
  {
    hide Inv, Next, Returns, Persist, Trace, After;
    if script == [] {
      NoEvents(cfg, w);
    } else {
      var admit := Event.Admit(script[0].paused);
      var w1 := Next(cfg, w, admit);
      OneEvent(cfg, w, admit);
      if !Returns(w1) {
        var es := script[0].outside + [script[0].wake];
        LoopIsARun(cfg, After(cfg, w1, es), script[1..]);
        var rest :| Trace(cfg, After(cfg, w1, es), rest)
          && var v := After(cfg, After(cfg, w1, es), rest);
             RunTo(cfg, After(cfg, w1, es), script[1..]) == (v, false)
             || (RunTo(cfg, After(cfg, w1, es), script[1..]) == (v.(s := Persist(v.s)), true) && Returns(v));
        TraceAppend(cfg, w1, es, rest);
        TraceAppend(cfg, w, [admit], es + rest);
      }
    }
  }

  lemma NoEvents(cfg: Config, w: World)
    requires Inv(cfg, w.s)
    ensures Trace(cfg, w, []) && After(cfg, w, []) == w
  {
  }

  lemma OneEvent(cfg: Config, w: World, e: Event)
    requires Inv(cfg, w.s) && Possible(w, e)
    ensures Trace(cfg, w, [e]) && After(cfg, w, [e]) == Next(cfg, w, e)
  {
    hide Inv, Next, Possible;
    NoEvents(cfg, Next(cfg, w, e));
    assert [e][1..] == [];
  }

  lemma NoneQueued(order: seq<string>, run: RunData)
    requires forall id :: id in order <==> id in run.jobs
    ensures |InOrder(order, QueuedIds(run))| == 0 <==> forall id :: id in run.jobs ==> !run.jobs[id].status.Queued?
  {
    var queued := InOrder(order, QueuedIds(run));
    assert |queued| > 0 ==> queued[0] in queued;
  }

  // What a completion gives back.
  ghost function Released(cfg: Config, s: Sched, f: Flight): (r: Sched)
    requires f.id in s.run.jobs
    ensures r.run == s.run
  {
    Charge(cfg, s, s.run.jobs[f.id].job, ZoneRegion(f.zone), -1).(flights := s.flights - multiset{f})
  }

  lemma CompleteParts(cfg: Config, s: Sched, now: int, f: Flight, end: int, cls: Class, killed: bool)
    requires f.id in s.run.jobs && |s.run.jobs[f.id].attempts| > 0
    ensures var rec := s.run.jobs[f.id];
      var s1 := Released(cfg, s, f);
      Complete(cfg, s, now, f, end, cls, killed) == Persist(
        if killed then SetRecord(s1, f.id, CloseAttempt(rec, end, Aborted).(status := Queued))
        else Settle(cfg, SetRecord(s1, f.id, CloseAttempt(rec, end, Classified(cls))), now, f.id, f.zone, cls))
  {
    hide Charge, Settle, CloseAttempt;
  }

  lemma RegionListed(zones: seq<string>, r: string)
    ensures r in RegionsOf(zones) <==> ZonesIn(zones, r) != []
  {
    if r in RegionsOf(zones) {
      Picking.RegionsHaveZones(zones, r);
    }
    if ZonesIn(zones, r) != [] {
      Picking.ZonesInMember(zones, r, ZonesIn(zones, r)[0]);
      Picking.RegionsMember(zones, ZonesIn(zones, r)[0]);
    }
  }

  lemma {:induction false} BestIsListed(cfg: Config, s: Sched, now: int, job: Job, regions: seq<string>)
    ensures var best := BestRegion(cfg, s, now, job, regions).0; best == "" || best in regions
  {
    hide Headroom;
    if regions != [] {
      BestIsListed(cfg, s, now, job, regions[..|regions| - 1]);
    }
  }

  lemma BestHasZones(cfg: Config, s: Sched, now: int, job: Job, cands: seq<string>)
    ensures var best := BestRegion(cfg, s, now, job, Sort(RegionsOf(cands))).0;
      best == "" || ZonesIn(cands, best) != []
  {
    hide BestRegion;
    var order := RegionsOf(cands);
    BestIsListed(cfg, s, now, job, Sort(order));
    SortSorts(order);
    RegionListed(cands, BestRegion(cfg, s, now, job, Sort(order)).0);
  }

  // A chosen zone lies in the best region, which is never the empty name.
  lemma ChooseZoneParts(cfg: Config, s: Sched, now: int, rec: Record, avoid: string, skipLast: bool)
    ensures var cands := Candidates(s.run, now, rec, avoid, skipLast, rec.job.zones);
      var best := BestRegion(cfg, s, now, rec.job, Sort(RegionsOf(cands))).0;
      var zones := ZonesIn(cands, best);
      var z := ChooseZone(cfg, s, now, rec, avoid, skipLast);
      if best == "" then z == ""
      else
        && zones != [] && z == zones[GetOr<string, nat>(s.zoneRR, best, 0) % |zones|]
        && ZoneRegion(z) == best && z != ""
  {
    hide BestRegion, Candidates, RegionsOf, ZonesIn, Sort, ZoneRegion;
    var cands := Candidates(s.run, now, rec, avoid, skipLast, rec.job.zones);
    BestHasZones(cfg, s, now, rec.job, cands);
    Picking.ZonesInMember(cands, BestRegion(cfg, s, now, rec.job, Sort(RegionsOf(cands))).0,
      ChooseZone(cfg, s, now, rec, avoid, skipLast));
  }

  // The tests a zone fails to be passed over.
  predicate Skipped(
      job: Job, swept: set<string>, cooldowns: map<CooldownKey, int>, now: int, avoid: string, skipLast: bool,
      z: string) {
    (skipLast && z == avoid) || z in swept || Cooling(cooldowns, QuotaKey(job.budgetKey, ZoneRegion(z)), now)
  }

  lemma NoCandidates(run: RunData, now: int, rec: Record, avoid: string, skipLast: bool)
    ensures Candidates(run, now, rec, avoid, skipLast, []) == [] && RegionsOf([]) == []
    ensures forall r :: ZonesIn([], r) == []
  {
  }

  lemma CandidatesStep(
      run: RunData, now: int, rec: Record, avoid: string, skipLast: bool, zones: seq<string>, z: string)
    ensures Candidates(run, now, rec, avoid, skipLast, zones + [z])
      == Candidates(run, now, rec, avoid, skipLast, zones)
         + (if Skipped(rec.job, rec.swept, run.cooldowns, now, avoid, skipLast, z) then [] else [z])
  {
    assert (zones + [z])[..|zones|] == zones;
  }

  lemma GroupsStep(cands: seq<string>, z: string)
    ensures RegionsOf(cands + [z]) == RegionsOf(cands)
        + (if ZonesIn(cands, ZoneRegion(z)) == [] then [ZoneRegion(z)] else [])
    ensures forall r :: ZonesIn(cands + [z], r) == ZonesIn(cands, r) + (if r == ZoneRegion(z) then [z] else [])
  {
    hide ZoneRegion;
    assert (cands + [z])[..|cands|] == cands;
    RegionListed(cands, ZoneRegion(z));
  }
}
