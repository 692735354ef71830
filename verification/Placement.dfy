// Plan-time feasibility: which jobs a run refuses because no region could ever
// hold them, by the same budget the scheduler tests at run time.
module Placement {
  import opened Names
  import opened Jobs
  import opened Budgets
  import opened Spec
  import opened Accounting
  import opened Invariants
  import opened State

  // The least usable budget over the job's keys.
  method RegionUsable(cfg: Config, job: Job, region: string) returns (usable: int)
    ensures ValidConfig(cfg) ==> forall cost: int :: usable >= cost <==> Fits(cfg, job.(cpuCost := cost), region)
  {
    hide Usable, ValidConfig;
    usable := -1;
    var keys := BudgetKeys(cfg, job, region);
    for i := 0 to |keys|
      invariant i == 0 ==> usable == -1
      invariant ValidConfig(cfg) && i > 0 ==> usable >= 0 && usable in Usables(cfg, region, keys[..i])
      invariant ValidConfig(cfg) ==> forall k :: 0 <= k < i ==> usable <= Usable(cfg, region, keys[k])
    {
      var u := Truncate(LimitOf(cfg.regions, region, keys[i]) as real * cfg.safetyFactor);
      UsableIs(cfg, region, keys, i);
      if usable == -1 || u < usable {
        usable := u;
      }
    }
    assert keys[..|keys|] == keys;
    if ValidConfig(cfg) {
      forall cost: int ensures usable >= cost <==> Fits(cfg, job.(cpuCost := cost), region) {
        assert BudgetKeys(cfg, job.(cpuCost := cost), region) == keys;
      }
    }
  }

  ghost function Usables(cfg: Config, region: string, keys: seq<string>): set<int> {
    set key | key in keys :: Usable(cfg, region, key)
  }

  lemma UsableIs(cfg: Config, region: string, keys: seq<string>, i: nat)
    requires i < |keys|
    ensures var u := Truncate(LimitOf(cfg.regions, region, keys[i]) as real * cfg.safetyFactor);
      && u == Usable(cfg, region, keys[i])
      && Usables(cfg, region, keys[..i + 1]) == Usables(cfg, region, keys[..i]) + {u}
      && (ValidConfig(cfg) ==> u >= 0)
  {
    assert keys[..i + 1] == keys[..i] + [keys[i]];
    if ValidConfig(cfg) {
      UsableWithinLimit(cfg, region, keys[i]);
    }
    hide Usable;
  }

  // The regions a job's zones lie in, each once, sorted.
  method EligibleRegions(job: Job) returns (regions: seq<string>)
    ensures Sorted(regions) && Distinct(regions)
    ensures forall r :: r in regions <==> exists z :: z in job.zones && ZoneRegion(z) == r
  {
    hide ZoneRegion;
    var seen: set<string> := {};
    regions := [];
    for i := 0 to |job.zones|
      invariant forall r :: r in seen <==> exists k :: 0 <= k < i && ZoneRegion(job.zones[k]) == r
      invariant forall r :: r in regions <==> r in seen
      invariant Distinct(regions)
    {
      var r := ZoneRegion(job.zones[i]);
      if r !in seen {
        seen := seen + {r};
        regions := regions + [r];
      }
    }
    DistinctSorted(regions);
    SortSorts(regions);
    regions := Sort(regions);
  }

  lemma DistinctCounts(s: seq<string>)
    requires Distinct(s)
    ensures forall x :: multiset(s)[x] <= 1
  {
    if s != [] {
      var n := |s| - 1;
      DistinctCounts(s[..n]);
      assert s == s[..n] + [s[n]];
      forall x ensures multiset(s)[x] <= 1 {
        if x == s[n] { assert x !in s[..n]; }
      }
    }
  }

  lemma DistinctSorted(s: seq<string>)
    requires Distinct(s)
    ensures Distinct(Sort(s))
  {
    DistinctCounts(s);
    var t := Sort(s);
    forall i, j | 0 <= i < j < |t| ensures t[i] != t[j] {
      assert t == t[..j] + t[j..];
      assert t[j..][0] == t[j] && t[..j][i] == t[i];
      assert multiset(t)[t[j]] == multiset(t[..j])[t[j]] + multiset(t[j..])[t[j]];
      assert t[j] !in multiset(t[..j]);
    }
  }

  // Every job that may launch has a zone it fits.
  ghost predicate Placeable(cfg: Config, job: Job) {
    job.quarantined != "" || Feasible(cfg, job) != {}
  }

  // The jobs that could never be admitted, in order.
  ghost function Unplaceable(cfg: Config, jobs: seq<Job>): seq<Job> {
    if jobs == [] then []
    else
      var front := Unplaceable(cfg, jobs[..|jobs| - 1]);
      var j := jobs[|jobs| - 1];
      if Placeable(cfg, j) then front else front + [j]
  }

  lemma {:induction false} UnplaceableMembers(cfg: Config, jobs: seq<Job>)
    ensures forall j :: j in Unplaceable(cfg, jobs) <==> j in jobs && !Placeable(cfg, j)
  {
    if jobs != [] {
      UnplaceableMembers(cfg, jobs[..|jobs| - 1]);
      assert jobs == jobs[..|jobs| - 1] + [jobs[|jobs| - 1]];
    }
  }

  method CanEverFit(cfg: Config, job: Job) returns (fits: bool)
    ensures ValidConfig(cfg) ==> (fits <==> Feasible(cfg, job) != {})
  {
    hide Fits, ValidConfig;
    var regions := EligibleRegions(job);
    fits := false;
    for i := 0 to |regions|
      invariant ValidConfig(cfg) ==> (fits <==> exists k :: 0 <= k < i && Fits(cfg, job, regions[k]))
    {
      var u := RegionUsable(cfg, job, regions[i]);
      assert job.(cpuCost := job.cpuCost) == job;
      if u >= job.cpuCost {
        fits := true;
      }
    }
    if ValidConfig(cfg) {
      if fits {
        var k :| 0 <= k < |regions| && Fits(cfg, job, regions[k]);
        assert regions[k] in regions;
        var z :| z in job.zones && ZoneRegion(z) == regions[k];
        assert z in Feasible(cfg, job);
      } else {
        forall z | z in job.zones ensures !Fits(cfg, job, ZoneRegion(z)) {
          assert ZoneRegion(z) in regions;
        }
      }
    }
  }

  // Plan time refuses exactly the jobs the scheduler could never place; the
  // error lists them, and there is none when the list is empty.
  method ValidatePlaceable(cfg: Config, jobs: seq<Job>) returns (bad: seq<Job>)
    ensures ValidConfig(cfg) ==> bad == Unplaceable(cfg, jobs)
  {
    hide Feasible, ValidConfig;
    bad := [];
    for i := 0 to |jobs|
      invariant ValidConfig(cfg) ==> bad == Unplaceable(cfg, jobs[..i])
    {
      assert jobs[..i + 1][..i] == jobs[..i];
      var j := jobs[i];
      if j.quarantined == "" {
        var fits := CanEverFit(cfg, j);
        if !fits {
          bad := bad + [j];
        }
      }
    }
    assert jobs[..|jobs|] == jobs;
  }

  // ------------------------------------------------------------- a new run

  function Ids(jobs: seq<Job>): seq<string> {
    if jobs == [] then [] else Ids(jobs[..|jobs| - 1]) + [jobs[|jobs| - 1].id]
  }

  ghost predicate Plannable(cfg: Config, jobs: seq<Job>) {
    Distinct(Ids(jobs)) && Unplaceable(cfg, jobs) == [] && forall j :: j in jobs ==> ValidJob(j)
  }

  lemma {:induction false} NewRunRecords(jobs: seq<Job>)
    ensures var run := NewRun(jobs);
      && run.order == Ids(jobs) && run.cooldowns == map[]
      && (forall id :: id in run.order <==> id in run.jobs)
      && (forall id :: id in run.jobs ==>
            run.jobs[id].job in jobs && run.jobs[id].job.id == id
            && var status := if run.jobs[id].job.quarantined != "" then Quarantined else Queued;
               run.jobs[id] == Record(run.jobs[id].job, status, [], {}, 0))
  {
    if jobs != [] {
      var n := |jobs| - 1;
      NewRunRecords(jobs[..n]);
      assert jobs == jobs[..n] + [jobs[n]];
    }
  }

  // A planned run that validation accepted starts out valid, with nothing
  // running, and so does the scheduler made for it.
  lemma PlannedRunIsValid(cfg: Config, jobs: seq<Job>)
    requires ValidConfig(cfg) && Plannable(cfg, jobs)
    ensures ValidRun(cfg, NewRun(jobs))
    ensures Inv(cfg, NewSched(NewRun(jobs), multiset{}))
  {
    hide Feasible, Unplaceable, ValidConfig, Inv, NewRun;
    var run := NewRun(jobs);
    NewRunRecords(jobs);
    UnplaceableMembers(cfg, jobs);
    forall id | id in run.jobs ensures ValidRecord(id, run.jobs[id]) && SweepOK(cfg, run.cooldowns, id, run.jobs[id]) {
      var rec := run.jobs[id];
      assert Placeable(cfg, rec.job);
      if rec.job.quarantined == "" {
        var z :| z in Feasible(cfg, rec.job);
      }
    }
    NewSchedInv(cfg, run, multiset{});
  }
}
