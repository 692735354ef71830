// What the status report derives from the run state alone.
module Reporting {
  import opened Names
  import opened Jobs
  import opened Budgets
  import opened Spec
  import opened Accounting
  import opened Invariants
  import opened State
  import Placement

  // One record's part in the occupancy of a region.
  function CPUsIn(rec: Record, region: string): int {
    if IsOpen(rec) && ZoneRegion(LastZone(rec)) == region then rec.job.cpuCost else 0
  }

  function RunningIn(rec: Record, region: string): nat {
    if IsOpen(rec) && ZoneRegion(LastZone(rec)) == region then 1 else 0
  }

  function CPUsOf(run: RunData, ids: seq<string>, region: string): int {
    if ids == [] then 0
    else
      var id := ids[|ids| - 1];
      var part := if id in run.jobs then CPUsIn(run.jobs[id], region) else 0;
      CPUsOf(run, ids[..|ids| - 1], region) + part
  }

  function RunningOf(run: RunData, ids: seq<string>, region: string): nat {
    if ids == [] then 0
    else
      var id := ids[|ids| - 1];
      var part := if id in run.jobs then RunningIn(run.jobs[id], region) else 0;
      RunningOf(run, ids[..|ids| - 1], region) + part
  }

  // The running jobs and their CPUs per region, and the regions that have any.
  method RegionOccupancy(
      st: RunState) returns (regions: seq<string>, runningPer: map<string, nat>, cpusPer: map<string, int>)
    requires st.Valid()
    ensures forall r :: GetOr(cpusPer, r, 0) == CPUsOf(st.run, st.order, r)
    ensures forall r :: GetOr(runningPer, r, 0) == RunningOf(st.run, st.order, r)
    ensures Sorted(regions) && Distinct(regions) && forall r :: r in regions <==> RunningOf(st.run, st.order, r) > 0
  {
    hide RunState.Valid, RunState.ValidBut, ZoneRegion, Sort, Sorted, CPUsOf, RunningOf;
    regions, runningPer, cpusPer := [], map[], map[];
    st.KnownAll();
    var order := st.order;
    ghost var run := st.run;
    NothingOccupied(run);
    for i := 0 to |order|
      invariant forall r :: GetOr(cpusPer, r, 0) == CPUsOf(run, order[..i], r)
      invariant forall r :: GetOr(runningPer, r, 0) == RunningOf(run, order[..i], r)
      invariant Distinct(regions) && forall r :: r in regions <==> RunningOf(run, order[..i], r) > 0
    {
      var id := order[i];
      st.Known(id);
      OccupancyStep(run, order[..i], order[..i + 1], id);
      var rec := st.Rec(id);
      assert rec.Value() == run.jobs[id];
      var attempts := rec.attempts;
      var n := |attempts|;
      if n > 0 && attempts[n - 1].outcome.Open? {
        var region := ZoneRegion(attempts[n - 1].zone);
        if GetOr(runningPer, region, 0) == 0 {
          regions := regions + [region];
        }
        runningPer := runningPer[region := GetOr(runningPer, region, 0) + 1];
        cpusPer := cpusPer[region := GetOr(cpusPer, region, 0) + rec.job.cpuCost];
      }
    }
    assert order[..|order|] == order;
    Placement.DistinctSorted(regions);
    SortSorts(regions);
    regions := Sort(regions);
  }

  // The running jobs of a region.
  function RunningIds(run: RunData, ids: seq<string>, region: string): set<string> {
    set id | id in ids && id in run.jobs && IsOpen(run.jobs[id]) && ZoneRegion(LastZone(run.jobs[id])) == region
  }

  lemma {:induction false} RunningIsNumber(run: RunData, ids: seq<string>, region: string)
    requires Distinct(ids)
    ensures RunningOf(run, ids, region) == |RunningIds(run, ids, region)|
  {
    hide ZoneRegion;
    if ids != [] {
      var n := |ids| - 1;
      RunningIsNumber(run, ids[..n], region);
      assert ids == ids[..n] + [ids[n]] && ids[n] !in ids[..n];
      var front := RunningIds(run, ids[..n], region);
      assert RunningIds(run, ids, region) ==
        front + if ids[n] in run.jobs && RunningIn(run.jobs[ids[n]], region) == 1 then {ids[n]} else {};
    }
  }

  lemma NothingOccupied(run: RunData)
    ensures forall r :: CPUsOf(run, [], r) == 0 && RunningOf(run, [], r) == 0
  {
  }

  lemma OccupancyStep(run: RunData, ids: seq<string>, longer: seq<string>, id: string)
    requires longer == ids + [id] && id in run.jobs
    ensures forall r :: CPUsOf(run, longer, r) == CPUsOf(run, ids, r) + CPUsIn(run.jobs[id], r)
    ensures forall r :: RunningOf(run, longer, r) == RunningOf(run, ids, r) + RunningIn(run.jobs[id], r)
  {
    hide CPUsIn, RunningIn;
    assert longer[..|longer| - 1] == ids;
  }

  lemma {:induction false} OccupancyIsTotal(cfg: Config, run: RunData, ids: seq<string>, region: string)
    ensures CPUsOf(run, ids, region) == Total(cfg, CPU(region, "CPUS"), ids, run.jobs)
  {
    if ids != [] {
      var n := |ids| - 1;
      OccupancyIsTotal(cfg, run, ids[..n], region);
      TotalOfAppended(cfg, CPU(region, "CPUS"), ids[..n], ids[n], run.jobs);
      assert ids == ids[..n] + [ids[n]];
    }
  }

  // In every reachable state the scheduler's CPU counter of a region is what
  // the report derives from the records.
  lemma CountersMatchReport(cfg: Config, s: Sched, region: string)
    requires Inv(cfg, s)
    ensures LimitOf(s.usedCPU, region, "CPUS") == CPUsOf(s.run, s.run.order, region)
    ensures LimitOf(s.usedCPU, region, "CPUS") == CPUsOf(s.saved, s.saved.order, region)
  {
    hide ValidRun, WithinBudgets, Flown, LiveOK;
    OccupancyIsTotal(cfg, s.run, s.run.order, region);
    assert Counter(s, CPU(region, "CPUS")) == Total(cfg, CPU(region, "CPUS"), s.run.order, s.run.jobs);
    SavedTotal(cfg, s, s.run.order, region);
  }

  // The saved records tell the same, so the report agrees while a run goes on.
  lemma {:induction false} SavedTotal(cfg: Config, s: Sched, ids: seq<string>, region: string)
    requires SavedAgrees(s)
    ensures CPUsOf(s.saved, ids, region) == CPUsOf(s.run, ids, region)
  {
    if ids != [] {
      SavedTotal(cfg, s, ids[..|ids| - 1], region);
    }
  }
}
