// Zone selection: when a zone is found, and which one.
module Picking {
  import opened Names
  import opened Jobs
  import opened Budgets
  import opened Spec

  // A zone the job could start in right now.
  predicate Admissible(cfg: Config, s: Sched, now: int, rec: Record, z: string) {
    && z in rec.job.zones
    && z !in rec.swept
    && !Cooling(s.run.cooldowns, QuotaKey(rec.job.budgetKey, ZoneRegion(z)), now)
    && Headroom(cfg, s, now, rec.job, ZoneRegion(z)) >= rec.job.cpuCost
  }

  // The record pickZone looks at: a fresh sweep once the cooldown has expired.
  function Effective(run: RunData, now: int, id: string): Record
    requires id in run.jobs
  {
    StartSweep(run, now, id).jobs[id]
  }

  ghost predicate CanPlace(cfg: Config, s: Sched, now: int, id: string)
    requires id in s.run.jobs
  {
    && !Cooling(s.run.cooldowns, StockoutKey(id), now)
    && exists z :: Admissible(cfg, s, now, Effective(s.run, now, id), z)
  }

  // z's region has more headroom than the other's, or as much and a smaller name.
  predicate NoWorse(cfg: Config, s: Sched, now: int, job: Job, z: string, other: string) {
    var h, h' := Headroom(cfg, s, now, job, ZoneRegion(z)), Headroom(cfg, s, now, job, ZoneRegion(other));
    h' < h || (h' == h && StrLe(ZoneRegion(z), ZoneRegion(other)))
  }

  lemma {:induction false} CandidatesMember(
      run: RunData, now: int, rec: Record, avoid: string, skipLast: bool, zones: seq<string>, z: string)
    ensures z in Candidates(run, now, rec, avoid, skipLast, zones) <==>
            z in zones && !(skipLast && z == avoid) && z !in rec.swept
            && !Cooling(run.cooldowns, QuotaKey(rec.job.budgetKey, ZoneRegion(z)), now)
  {
    if zones != [] {
      var n := |zones| - 1;
      CandidatesMember(run, now, rec, avoid, skipLast, zones[..n], z);
      assert zones == zones[..n] + [zones[n]];
    }
  }

  lemma {:induction false} RegionsMember(zones: seq<string>, z: string)
    requires z in zones
    ensures ZoneRegion(z) in RegionsOf(zones)
  {
    var n := |zones| - 1;
    if z in zones[..n] {
      RegionsMember(zones[..n], z);
    } else {
      assert zones == zones[..n] + [zones[n]];
    }
  }

  lemma {:induction false} RegionsHaveZones(zones: seq<string>, r: string)
    requires r in RegionsOf(zones)
    ensures ZonesIn(zones, r) != []
  {
    var n := |zones| - 1;
    if r in RegionsOf(zones[..n]) {
      RegionsHaveZones(zones[..n], r);
    }
  }

  lemma {:induction false} ZonesInMember(zones: seq<string>, r: string, z: string)
    ensures z in ZonesIn(zones, r) <==> z in zones && ZoneRegion(z) == r
  {
    if zones != [] {
      var n := |zones| - 1;
      ZonesInMember(zones[..n], r, z);
      assert zones == zones[..n] + [zones[n]];
    }
  }

  // The region at index b can hold the job and no earlier region has as much
  // headroom, no later one more.
  ghost predicate Leads(cfg: Config, s: Sched, now: int, job: Job, regions: seq<string>, b: int) {
    && 0 <= b < |regions|
    && Headroom(cfg, s, now, job, regions[b]) >= job.cpuCost
    && forall i :: 0 <= i < |regions| ==>
         Headroom(cfg, s, now, job, regions[i]) < Headroom(cfg, s, now, job, regions[b])
         || (Headroom(cfg, s, now, job, regions[i]) == Headroom(cfg, s, now, job, regions[b]) && b <= i)
  }

  // The fold over the regions finds the leading one, and none only when no
  // region can hold the job.
  lemma {:induction false} BestRegionLeads(cfg: Config, s: Sched, now: int, job: Job, regions: seq<string>)
    requires job.cpuCost >= 0
    requires "" !in regions
    ensures var (best, free) := BestRegion(cfg, s, now, job, regions);
      if best == "" then
        free == -1 && forall i :: 0 <= i < |regions| ==> Headroom(cfg, s, now, job, regions[i]) < job.cpuCost
      else
        && free == Headroom(cfg, s, now, job, best)
        && exists b :: Leads(cfg, s, now, job, regions, b) && regions[b] == best
  {
    hide Headroom;
    if regions != [] {
      var n := |regions| - 1;
      assert regions[n] in regions;
      BestRegionLeads(cfg, s, now, job, regions[..n]);
      var (best, free) := BestRegion(cfg, s, now, job, regions[..n]);
      var h := Headroom(cfg, s, now, job, regions[n]);
      assert forall i :: 0 <= i < n ==> regions[..n][i] == regions[i];
      if h >= job.cpuCost && h > free {
        if best != "" {
          var b :| Leads(cfg, s, now, job, regions[..n], b) && regions[..n][b] == best;
        }
        assert Leads(cfg, s, now, job, regions, n);
      } else if best != "" {
        var b :| Leads(cfg, s, now, job, regions[..n], b) && regions[..n][b] == best;
        assert Leads(cfg, s, now, job, regions, b);
      }
    }
  }

  // What the chosen zone of a pass satisfies.
  ghost predicate BestOf(cfg: Config, s: Sched, now: int, rec: Record, avoid: string, skipLast: bool, z: string) {
    && (z != "" ==> Admissible(cfg, s, now, rec, z) && !(skipLast && z == avoid))
    && forall other :: Admissible(cfg, s, now, rec, other) && !(skipLast && other == avoid) ==>
         z != "" && NoWorse(cfg, s, now, rec.job, z, other)
  }

  lemma RegionsOfCandidates(run: RunData, now: int, rec: Record, avoid: string, skipLast: bool)
    requires ValidJob(rec.job)
    ensures var cands := Candidates(run, now, rec, avoid, skipLast, rec.job.zones);
      "" !in RegionsOf(cands) && forall r :: r in RegionsOf(cands) ==> ZonesIn(cands, r) != []
  {
    var cands := Candidates(run, now, rec, avoid, skipLast, rec.job.zones);
    forall r | r in RegionsOf(cands) ensures r != "" && ZonesIn(cands, r) != [] {
      RegionsHaveZones(cands, r);
      var z := ZonesIn(cands, r)[0];
      ZonesInMember(cands, r, z);
      CandidatesMember(run, now, rec, avoid, skipLast, rec.job.zones, z);
    }
  }

  // One pass finds a zone whenever one of its candidates fits, and a best one.
  lemma ChooseZoneIsBest(cfg: Config, s: Sched, now: int, rec: Record, avoid: string, skipLast: bool)
    requires ValidJob(rec.job)
    ensures BestOf(cfg, s, now, rec, avoid, skipLast, ChooseZone(cfg, s, now, rec, avoid, skipLast))
  {
    hide Headroom, Candidates, RegionsOf, ZonesIn, BestRegion, Sort, ZoneRegion;
    var cands := Candidates(s.run, now, rec, avoid, skipLast, rec.job.zones);
    var regions := Sort(RegionsOf(cands));
    SortSorts(RegionsOf(cands));
    RegionsOfCandidates(s.run, now, rec, avoid, skipLast);
    assert "" in RegionsOf(cands) <==> "" in regions;
    BestRegionLeads(cfg, s, now, rec.job, regions);
    var best := BestRegion(cfg, s, now, rec.job, regions).0;
    var z := ChooseZone(cfg, s, now, rec, avoid, skipLast);
    if best != "" {
      assert best in regions && z in ZonesIn(cands, best);
      ZonesInMember(cands, best, z);
      CandidatesMember(s.run, now, rec, avoid, skipLast, rec.job.zones, z);
    }
    forall other | Admissible(cfg, s, now, rec, other) && !(skipLast && other == avoid)
      ensures z != "" && NoWorse(cfg, s, now, rec.job, z, other)
    {
      CandidatesMember(s.run, now, rec, avoid, skipLast, rec.job.zones, other);
      RegionsMember(cands, other);
      var i :| 0 <= i < |regions| && regions[i] == ZoneRegion(other);
      StrLeReflexive(ZoneRegion(other));
    }
  }

  lemma {:induction false} StrLeReflexive(a: string)
    ensures StrLe(a, a)
  {
    StrLeTotal(a, a);
  }

  lemma {:induction false} HeadroomFrame(cfg: Config, s: Sched, t: Sched, now: int, region: string, keys: seq<string>)
    requires s.penalty == t.penalty && s.usedCPU == t.usedCPU
    ensures HeadroomOver(cfg, s, now, region, keys) == HeadroomOver(cfg, t, now, region, keys)
  {
    if keys != [] {
      HeadroomFrame(cfg, s, t, now, region, keys[..|keys| - 1]);
    }
  }

  // StartSweep changes neither headroom nor the quota cooldowns.
  lemma StartSweepKeepsAdmissible(cfg: Config, s: Sched, now: int, id: string)
    requires id in s.run.jobs
    ensures var t := s.(run := StartSweep(s.run, now, id));
      && (forall job, r :: Headroom(cfg, t, now, job, r) == Headroom(cfg, s, now, job, r))
      && (forall rec, z :: Admissible(cfg, t, now, rec, z) <==> Admissible(cfg, s, now, rec, z))
  {
    var t := s.(run := StartSweep(s.run, now, id));
    forall job, r ensures Headroom(cfg, t, now, job, r) == Headroom(cfg, s, now, job, r) {
      HeadroomFrame(cfg, s, t, now, r, BudgetKeys(cfg, job, r));
    }
    hide Headroom;
  }

  // pickZone returns no zone exactly when the sweep is cooling down or no zone
  // is admissible; a returned zone is admissible, differs from the avoided one
  // unless that is the only one, and no admissible zone lies in a better region.
  lemma PickZoneCompleteAndOptimal(cfg: Config, s: Sched, now: int, id: string, avoid: string)
    requires id in s.run.jobs && ValidJob(s.run.jobs[id].job)
    ensures var z := PickZone(cfg, s, now, id, avoid).0;
      var rec := Effective(s.run, now, id);
      && (z == "" <==> !CanPlace(cfg, s, now, id))
      && (z != "" ==> Admissible(cfg, s, now, rec, z))
      && (z != "" && z == avoid ==> forall other :: Admissible(cfg, s, now, rec, other) ==> other == avoid)
      && (z != "" ==>
            forall other :: Admissible(cfg, s, now, rec, other) && other != avoid ==>
              NoWorse(cfg, s, now, rec.job, z, other))
  {
    hide Headroom, ChooseZone;
    if !Cooling(s.run.cooldowns, StockoutKey(id), now) {
      var s1 := s.(run := StartSweep(s.run, now, id));
      var rec := s1.run.jobs[id];
      ChooseZoneIsBest(cfg, s1, now, rec, avoid, true);
      ChooseZoneIsBest(cfg, s1, now, rec, avoid, false);
      StartSweepKeepsAdmissible(cfg, s, now, id);
      var z := PickZone(cfg, s, now, id, avoid).0;
      assert rec == Effective(s.run, now, id);
      assert z == "" <==> !CanPlace(cfg, s, now, id);
    }
  }

  // The only state pickZone touches: this job's sweep and the round-robin turn.
  lemma PickZoneFrame(cfg: Config, s: Sched, now: int, id: string, avoid: string)
    requires id in s.run.jobs
    ensures var (z, t) := PickZone(cfg, s, now, id, avoid);
      && t == s.(run := t.run, zoneRR := t.zoneRR)
      && (Cooling(s.run.cooldowns, StockoutKey(id), now) ==> t == s)
      && (!Cooling(s.run.cooldowns, StockoutKey(id), now) ==>
          t.run == StartSweep(s.run, now, id) && StockoutKey(id) !in t.run.cooldowns)
      && t.run.jobs == s.run.jobs[id := s.run.jobs[id].(swept := t.run.jobs[id].swept)]
  {
    assert s.run.jobs == s.run.jobs[id := s.run.jobs[id]];
  }

  // Headroom is the least of the free amounts, and at most 2^30.
  lemma {:induction false} HeadroomIsLeast(
      cfg: Config, s: Sched, now: int, region: string, keys: seq<string>, cost: int)
    requires cost <= MAX_HEADROOM
    ensures HeadroomOver(cfg, s, now, region, keys) >= cost <==>
            forall key :: key in keys ==> Free(cfg, s, now, region, key) >= cost
  {
    if keys != [] {
      var n := |keys| - 1;
      HeadroomIsLeast(cfg, s, now, region, keys[..n], cost);
      assert keys == keys[..n] + [keys[n]];
    }
  }
}
