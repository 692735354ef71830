// The run state as it lives in memory: records that are updated in place.
module State {
  import opened Options
  import opened Names
  import opened Jobs
  import opened Budgets
  import opened Spec
  import opened ResumeSpec
  import opened Accounting
  import opened Invariants

  class JobRecord {
    var job: Job
    var status: Status
    var attempts: seq<Attempt>
    var swept: set<string>
    var rounds: int

    constructor (job: Job, status: Status)
      ensures Value() == Record(job, status, [], {}, 0)
    {
      this.job, this.status := job, status;
      attempts, swept, rounds := [], {}, 0;
    }

    ghost function Value(): Record
      reads this
    {
      Record(job, status, attempts, swept, rounds)
    }

    // The last attempt is closed in place.
    method CloseLastAttempt(end: int, outcome: Outcome)
      requires |attempts| > 0
      modifies this`attempts
      ensures Value() == old(Value()).(attempts := CloseLast(old(attempts), end, outcome))
    {
      var n := |attempts| - 1;
      attempts := attempts[n := attempts[n].(end := end, outcome := outcome)];
    }
  }

  // run is the state as a value; every update of the records is followed by
  // Sync, which brings it up to date.
  class RunState {
    var order: seq<string>
    var jobs: map<string, JobRecord>
    var cooldowns: map<CooldownKey, int>
    ghost var run: RunData

    ghost predicate Valid()
      reads this, jobs.Values
    {
      ValidBut(None) && run.cooldowns == cooldowns
    }

    // No two ids share a record, and all records but one are as in run.
    ghost predicate ValidBut(touched: Option<string>)
      reads this, jobs.Values
    {
      && run.order == order && run.jobs.Keys == jobs.Keys
      && (forall id :: id in order ==> id in jobs)
      && (forall i, j :: i in jobs && j in jobs && i != j ==> jobs[i] != jobs[j])
      && forall id :: id in jobs && touched != Some(id) ==> jobs[id].Value() == run.jobs[id]
    }

    // Only the record of id, and perhaps the cooldowns, were written.
    twostate lemma Touched(id: string)
      requires old(Valid()) && id in jobs
      requires jobs == old(jobs) && order == old(order) && run == old(run)
      requires forall rec :: rec in jobs.Values && rec != jobs[id] ==> rec.Value() == old(rec.Value())
      ensures ValidBut(Some(id))
    {
    }

    ghost method Sync(id: string)
      requires ValidBut(Some(id)) && id in jobs
      modifies this`run
      ensures Valid()
      ensures run == RunData(order, old(run).jobs[id := jobs[id].Value()], cooldowns)
    {
      run := RunData(order, run.jobs[id := jobs[id].Value()], cooldowns);
    }

    function Rec(id: string): JobRecord
      requires id in jobs
      reads this
    {
      jobs[id]
    }

    method SetStatus(id: string, status: Status)
      requires Valid() && id in jobs
      modifies this`run, Rec(id)`status
      ensures Valid() && id in old(run).jobs
      ensures run == old(run).(jobs := old(run).jobs[id := old(run).jobs[id].(status := status)])
    {
      hide Valid, ValidBut;
      Known(id);
      Rec(id).status := status;
      Touched(id);
      Sync(id);
    }

    method Begin(id: string, zone: string, now: int)
      requires Valid() && id in jobs
      modifies this`run, Rec(id)`status, Rec(id)`attempts
      ensures Valid() && id in old(run).jobs
      ensures run == old(run).(jobs := old(run).jobs[id := OpenAttempt(old(run).jobs[id], now, zone)])
    {
      hide Valid, ValidBut;
      Known(id);
      var rec := Rec(id);
      rec.status := Running;
      rec.attempts := rec.attempts + [Attempt(zone, now, 0, Open)];
      Touched(id);
      Sync(id);
    }

    method Close(id: string, end: int, outcome: Outcome)
      requires Valid() && id in jobs && |jobs[id].attempts| > 0
      modifies this`run, Rec(id)`attempts
      ensures Valid() && id in old(run).jobs && |old(run).jobs[id].attempts| > 0
      ensures run == old(run).(jobs := old(run).jobs[id := CloseAttempt(old(run).jobs[id], end, outcome)])
    {
      hide Valid, ValidBut;
      Known(id);
      Rec(id).CloseLastAttempt(end, outcome);
      Touched(id);
      Sync(id);
    }

    method MarkOrphaned(id: string)
      requires Valid() && id in jobs
      modifies this`run, Rec(id)`attempts
      ensures Valid() && id in old(run).jobs
      ensures run == old(run).(jobs := old(run).jobs[id := Orphan(old(run).jobs[id])])
    {
      hide Valid, ValidBut;
      Known(id);
      var rec := Rec(id);
      var n := |rec.attempts|;
      if n > 0 {
        rec.attempts := rec.attempts[n - 1 := rec.attempts[n - 1].(outcome := Orphaned)];
      }
      Touched(id);
      Sync(id);
    }

    method ForgetSweeps(id: string)
      requires Valid() && id in jobs
      modifies this`run, this`cooldowns, Rec(id)`swept, Rec(id)`rounds
      ensures Valid() && id in old(run).jobs
      ensures run == old(run).(jobs := old(run).jobs[id := old(run).jobs[id].(swept := {}, rounds := 0)],
                               cooldowns := old(run).cooldowns - {StockoutKey(old(run).jobs[id].job.id)})
    {
      hide Valid, ValidBut;
      Known(id);
      var rec := Rec(id);
      rec.swept, rec.rounds := {}, 0;
      cooldowns := cooldowns - {StockoutKey(rec.job.id)};
      Touched(id);
      Sync(id);
    }

    method SetCooldowns(table: map<CooldownKey, int>)
      requires Valid()
      modifies this`cooldowns, this`run
      ensures Valid() && run == old(run).(cooldowns := table)
    {
      cooldowns := table;
      run := run.(cooldowns := table);
    }

    lemma KnownAll()
      requires Valid()
      ensures order == run.order && cooldowns == run.cooldowns && jobs.Keys == run.jobs.Keys
      ensures forall i :: i in order ==> i in jobs
    {
    }

    lemma Known(id: string)
      requires Valid() && id in jobs
      ensures id in run.jobs && jobs[id].Value() == run.jobs[id]
      ensures order == run.order && cooldowns == run.cooldowns && jobs.Keys == run.jobs.Keys
      ensures forall i :: i in order ==> i in jobs
    {
    }

    // A run as it is planned: quarantined jobs are skipped, all others queued.
    constructor (planned: seq<Job>)
      ensures Valid() && fresh(jobs.Values)
      ensures run == NewRun(planned)
    {
      order, jobs, cooldowns := [], map[], map[];
      run := RunData([], map[], map[]);
      new;
      for k := 0 to |planned|
        invariant Valid() && fresh(jobs.Values)
        invariant run == NewRun(planned[..k])
      {
        hide Valid, ValidBut;
        assert planned[..k + 1][..k] == planned[..k];
        Add(planned[k]);
      }
      assert planned[..|planned|] == planned;
    }

    method Add(j: Job)
      requires Valid()
      modifies this
      ensures Valid() && fresh(jobs.Values - old(jobs.Values))
      ensures run == Planned(old(run), j)
    {
      var rec := new JobRecord(j, if j.quarantined != "" then Quarantined else Queued);
      order := order + [j.id];
      ghost var before := jobs;
      jobs := jobs[j.id := rec];
      assert jobs.Values <= before.Values + {rec};
      run := Planned(run, j);
    }
  }

  function Planned(run: RunData, j: Job): RunData {
    var rec := Record(j, if j.quarantined != "" then Quarantined else Queued, [], {}, 0);
    run.(order := run.order + [j.id], jobs := run.jobs[j.id := rec])
  }

  function NewRun(planned: seq<Job>): RunData {
    if planned == [] then RunData([], map[], map[])
    else Planned(NewRun(planned[..|planned| - 1]), planned[|planned| - 1])
  }
}
