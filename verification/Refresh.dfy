// Re-planning a saved run under an edited configuration, all or nothing.
module Refreshing {
  import opened Options
  import opened Names
  import opened Jobs
  import opened Budgets
  import opened Spec
  import opened Accounting
  import opened Invariants
  import opened State
  import opened Placement
  import opened Matrix

  datatype RefreshError =
    | BadMatrix | StillRunning(id: string) | Unmatched(id: string)
    | NotPlaceable | Storage

  // backup says whether a backup file was left behind.
  datatype RefreshResult = Refreshed(count: nat, backup: bool) | Failed(error: RefreshError, backup: bool)

  // How the file operations turn out: reading the state, creating, writing and
  // closing the backup, and saving the new state.
  datatype Files = Files(read: bool, create: bool, write: bool, close: bool, save: bool)

  // The jobs that are replaced: those a resume may queue.
  predicate Changes(status: Status) {
    status.Queued? || status.FailedInfra? || status.FailedReal?
  }

  function RefreshJob(job: Job, planned: Job): Job {
    job.(zones := planned.zones, cpuCost := planned.cpuCost, budgetKey := planned.budgetKey)
  }

  function RefreshRecord(rec: Record, id: string, byId: map<string, Job>): Record {
    if Changes(rec.status) && id in byId
    then rec.(job := RefreshJob(rec.job, byId[id]), swept := {}, rounds := 0)
    else rec
  }

  function ChangedIds(run: RunData): set<string> {
    set id | id in run.jobs && Changes(run.jobs[id].status)
  }

  function DropSweeps(cooldowns: map<CooldownKey, int>, ids: set<string>): map<CooldownKey, int> {
    map key | key in cooldowns && !(key.StockoutKey? && key.id in ids) :: cooldowns[key]
  }

  // The run after a refresh: placements replaced and sweeps forgotten.
  function RefreshRun(run: RunData, byId: map<string, Job>): RunData {
    RunData(run.order, map id | id in run.jobs :: RefreshRecord(run.jobs[id], id, byId),
            DropSweeps(run.cooldowns, ChangedIds(run)))
  }

  function ById(jobs: seq<Job>): map<string, Job> {
    if jobs == [] then map[]
    else ById(jobs[..|jobs| - 1])[jobs[|jobs| - 1].id := jobs[|jobs| - 1]]
  }

  lemma {:induction false} ByIdKeys(jobs: seq<Job>)
    ensures forall id :: id in ById(jobs) <==> id in Ids(jobs)
    ensures forall id :: id in ById(jobs) ==> ById(jobs)[id] in jobs && ById(jobs)[id].id == id
  {
    if jobs != [] {
      var n := |jobs| - 1;
      ByIdKeys(jobs[..n]);
      assert jobs == jobs[..n] + [jobs[n]];
    }
  }

  // Nothing runs, and every job to be replaced is in the plan.
  ghost predicate Matched(run: RunData, byId: map<string, Job>) {
    forall id :: id in run.jobs ==> Replaceable(run.jobs[id], id, byId)
  }

  predicate Replaceable(rec: Record, id: string, byId: map<string, Job>) {
    !rec.status.Running? && (Changes(rec.status) ==> id in byId && rec.job.id == id)
  }

  // Every replaced job has a zone it fits under the new configuration.
  ghost predicate StaysPlaceable(cfg: Config, run: RunData, byId: map<string, Job>) {
    forall id :: id in ChangedIds(run) && id in byId ==> Feasible(cfg, RefreshJob(run.jobs[id].job, byId[id])) != {}
  }

  // ------------------------------------------------------------ the operation

  method IndexById(jobs: seq<Job>) returns (duplicate: Option<string>, byId: map<string, Job>)
    ensures duplicate.None? <==> Distinct(Ids(jobs))
    ensures duplicate.None? ==> byId == ById(jobs)
  {
    duplicate, byId := None, map[];
    for i := 0 to |jobs|
      invariant duplicate == None && byId == ById(jobs[..i]) && Distinct(Ids(jobs[..i]))
    {
      assert jobs[..i + 1][..i] == jobs[..i];
      ByIdKeys(jobs[..i]);
      if jobs[i].id in byId {
        NotDistinct(jobs, i);
        return Some(jobs[i].id), byId;
      }
      byId := byId[jobs[i].id := jobs[i]];
    }
    assert jobs[..|jobs|] == jobs;
  }

  lemma {:induction false} IdsPrefix(jobs: seq<Job>, i: nat)
    requires i <= |jobs|
    ensures |Ids(jobs)| == |jobs| && Ids(jobs)[..i] == Ids(jobs[..i])
    ensures i < |jobs| ==> Ids(jobs)[i] == jobs[i].id
    decreases |jobs|
  {
    if i < |jobs| {
      var n := |jobs| - 1;
      IdsPrefix(jobs[..n], i);
      assert jobs[..n][..i] == jobs[..i];
    } else {
      assert jobs[..i] == jobs;
      if jobs != [] { IdsPrefix(jobs[..|jobs| - 1], |jobs| - 1); }
    }
  }

  lemma NotDistinct(jobs: seq<Job>, i: nat)
    requires i < |jobs| && jobs[i].id in Ids(jobs[..i])
    ensures !Distinct(Ids(jobs))
  {
    IdsPrefix(jobs, i);
    var k :| 0 <= k < |Ids(jobs[..i])| && Ids(jobs[..i])[k] == jobs[i].id;
    assert Ids(jobs)[..i][k] == Ids(jobs)[k];
  }

  // Fresh copies of the records, in no particular order.
  ghost predicate Copied(jobs: map<string, JobRecord>, run: RunData, byId: map<string, Job>, done: set<string>)
    reads jobs.Values
  {
    && jobs.Keys == done && done <= run.jobs.Keys
    && (forall i, j :: i in jobs && j in jobs && i != j ==> jobs[i] != jobs[j])
    && forall id :: id in done ==> jobs[id].Value() == RefreshRecord(run.jobs[id], id, byId)
  }

  ghost predicate Gathered(candidates: seq<Job>, run: RunData, byId: map<string, Job>, ids: set<string>) {
    && |candidates| == |ids|
    && ids <= ChangedIds(run) && ids <= byId.Keys
    && (forall id :: id in ids ==> Candidate(run.jobs[id].job, byId[id]) in candidates)
    && (forall j :: j in candidates ==> exists id :: id in ids && j == Candidate(run.jobs[id].job, byId[id]))
  }

  // What is validated is what will run, whatever quarantine the plan now asks.
  function Candidate(job: Job, planned: Job): Job {
    RefreshJob(job, planned).(quarantined := "")
  }

  method CopyRecord(st: RunState, id: string, byId: map<string, Job>) returns (copy: JobRecord)
    requires st.Valid() && id in st.jobs
    ensures fresh(copy) && id in st.run.jobs && copy.Value() == RefreshRecord(st.run.jobs[id], id, byId)
  {
    hide RunState.Valid, RunState.ValidBut;
    st.Known(id);
    var rec := st.Rec(id);
    copy := new JobRecord(rec.job, rec.status);
    copy.attempts, copy.swept, copy.rounds := rec.attempts, rec.swept, rec.rounds;
    if Changes(rec.status) && id in byId {
      copy.job := RefreshJob(rec.job, byId[id]);
      copy.swept, copy.rounds := {}, 0;
    }
  }

  method CopyInto(
      st: RunState, id: string, byId: map<string, Job>, jobs: map<string, JobRecord>, ghost todo: set<string>)
    returns (jobs': map<string, JobRecord>)
    requires st.Valid() && id in st.jobs && id in todo && Copied(jobs, st.run, byId, st.run.jobs.Keys - todo)
    ensures fresh(jobs'.Values - jobs.Values)
    ensures Copied(jobs', st.run, byId, st.run.jobs.Keys - (todo - {id}))
  {
    hide RunState.Valid, RunState.ValidBut, RefreshRecord, Copied;
    var copy := CopyRecord(st, id, byId);
    CopiedOneMore(jobs, st.run, byId, todo, id, copy);
    jobs' := jobs[id := copy];
    assert jobs'.Values <= jobs.Values + {copy};
  }

  method Replacements(st: RunState, byId: map<string, Job>)
    returns (error: Option<RefreshError>, jobs: map<string, JobRecord>, cooldowns: map<CooldownKey, int>,
      candidates: seq<Job>)
    requires st.Valid()
    ensures error.None? <==> Matched(st.run, byId)
    ensures error.None? ==>
      && Copied(jobs, st.run, byId, st.run.jobs.Keys)
      && cooldowns == DropSweeps(st.run.cooldowns, ChangedIds(st.run))
      && Gathered(candidates, st.run, byId, ChangedIds(st.run))
  {
    hide RunState.Valid, RunState.ValidBut, RefreshRecord, DropSweeps, Gathered, ChangedIds, Copied, Matched;
    hide MatchedOutside, Candidate;
    st.KnownAll();
    ghost var run := st.run;
    error, jobs, cooldowns, candidates := None, map[], st.cooldowns, [];
    var todo := st.jobs.Keys;
    NothingYet(run, byId);
    while todo != {}
      invariant error == None && todo <= run.jobs.Keys
      invariant Copied(jobs, run, byId, run.jobs.Keys - todo)
      invariant cooldowns == DropSweeps(run.cooldowns, ChangedIds(run) - todo)
      invariant Gathered(candidates, run, byId, ChangedIds(run) - todo)
      invariant MatchedOutside(run, byId, todo)
      decreases |todo|
    {
      var id :| id in todo;
      st.Known(id);
      var rec := st.Rec(id);
      MatchOneMore(run, byId, todo, id);
      if rec.status == Running {
        return Some(StillRunning(id)), jobs, cooldowns, candidates;
      }
      if Changes(rec.status) && (id !in byId || rec.job.id != id) {
        return Some(Unmatched(id)), jobs, cooldowns, candidates;
      }
      jobs := CopyInto(st, id, byId, jobs, todo);
      TakeOne(run, candidates, byId, todo, id);
      if Changes(rec.status) {
        cooldowns := cooldowns - {StockoutKey(id)};
        candidates := candidates + [Candidate(rec.job, byId[id])];
      }
      todo := todo - {id};
    }
    AllDone(run, byId);
  }

  ghost predicate MatchedOutside(run: RunData, byId: map<string, Job>, todo: set<string>) {
    forall id :: id in run.jobs && id !in todo ==> Replaceable(run.jobs[id], id, byId)
  }

  lemma MatchOneMore(run: RunData, byId: map<string, Job>, todo: set<string>, id: string)
    requires MatchedOutside(run, byId, todo) && id in run.jobs
    ensures Replaceable(run.jobs[id], id, byId) ==> MatchedOutside(run, byId, todo - {id})
    ensures !Replaceable(run.jobs[id], id, byId) ==> !Matched(run, byId)
  {
  }

  lemma AllDone(run: RunData, byId: map<string, Job>)
    ensures MatchedOutside(run, byId, {}) <==> Matched(run, byId)
    ensures run.jobs.Keys - {} == run.jobs.Keys && ChangedIds(run) - {} == ChangedIds(run)
  {
  }

  lemma NothingYet(run: RunData, byId: map<string, Job>)
    ensures Copied(map[], run, byId, run.jobs.Keys - run.jobs.Keys) && MatchedOutside(run, byId, run.jobs.Keys)
    ensures DropSweeps(run.cooldowns, ChangedIds(run) - run.jobs.Keys) == run.cooldowns
    ensures Gathered([], run, byId, ChangedIds(run) - run.jobs.Keys)
  {
    assert ChangedIds(run) - run.jobs.Keys == {};
  }

  lemma CopiedOneMore(
      jobs: map<string, JobRecord>, run: RunData, byId: map<string, Job>, todo: set<string>, id: string,
      copy: JobRecord)
    requires Copied(jobs, run, byId, run.jobs.Keys - todo) && id in run.jobs && id in todo && copy !in jobs.Values
    requires copy.Value() == RefreshRecord(run.jobs[id], id, byId)
    ensures Copied(jobs[id := copy], run, byId, run.jobs.Keys - (todo - {id}))
  {
    hide RefreshRecord;
    assert run.jobs.Keys - (todo - {id}) == run.jobs.Keys - todo + {id};
  }

  // One job less to do: a changed one loses its sweep cooldown and becomes a
  // candidate.
  lemma TakeOne(run: RunData, candidates: seq<Job>, byId: map<string, Job>, todo: set<string>, id: string)
    requires id in todo && id in run.jobs && Replaceable(run.jobs[id], id, byId)
    requires Gathered(candidates, run, byId, ChangedIds(run) - todo)
    ensures Changes(run.jobs[id].status) ==>
      && DropSweeps(run.cooldowns, ChangedIds(run) - (todo - {id}))
         == DropSweeps(run.cooldowns, ChangedIds(run) - todo) - {StockoutKey(id)}
      && Gathered(candidates + [Candidate(run.jobs[id].job, byId[id])], run, byId, ChangedIds(run) - (todo - {id}))
    ensures !Changes(run.jobs[id].status) ==> ChangedIds(run) - (todo - {id}) == ChangedIds(run) - todo
  {
    hide Gathered, DropSweeps, Candidate;
    if Changes(run.jobs[id].status) {
      assert ChangedIds(run) - (todo - {id}) == ChangedIds(run) - todo + {id};
      DropOneMore(run.cooldowns, ChangedIds(run) - todo, id);
      GatheredOneMore(candidates, run, byId, ChangedIds(run) - todo, id);
    }
  }

  lemma DropOneMore(cooldowns: map<CooldownKey, int>, ids: set<string>, id: string)
    ensures DropSweeps(cooldowns, ids + {id}) == DropSweeps(cooldowns, ids) - {StockoutKey(id)}
  {
  }

  lemma GatheredOneMore(candidates: seq<Job>, run: RunData, byId: map<string, Job>, ids: set<string>, id: string)
    requires Gathered(candidates, run, byId, ids) && id in ChangedIds(run) && id in byId && id !in ids
    ensures Gathered(candidates + [Candidate(run.jobs[id].job, byId[id])], run, byId, ids + {id})
  {
    hide Candidate;
  }

  lemma GatheredPlaceable(cfg: Config, candidates: seq<Job>, run: RunData, byId: map<string, Job>)
    requires Gathered(candidates, run, byId, ChangedIds(run))
    ensures Unplaceable(cfg, candidates) == [] <==> StaysPlaceable(cfg, run, byId)
  {
    hide Unplaceable, RefreshJob, Fits;
    UnplaceableMembers(cfg, candidates);
    if Unplaceable(cfg, candidates) != [] {
      var j := Unplaceable(cfg, candidates)[0];
      assert j in Unplaceable(cfg, candidates);
      var id :| id in ChangedIds(run) && j == Candidate(run.jobs[id].job, byId[id]);
      QuarantineIgnored(cfg, RefreshJob(run.jobs[id].job, byId[id]));
    }
    if Unplaceable(cfg, candidates) == [] {
      forall id | id in ChangedIds(run) && id in byId
        ensures Feasible(cfg, RefreshJob(run.jobs[id].job, byId[id])) != {}
      {
        QuarantineIgnored(cfg, RefreshJob(run.jobs[id].job, byId[id]));
        assert Placeable(cfg, Candidate(run.jobs[id].job, byId[id]));
      }
    }
  }

  lemma QuarantineIgnored(cfg: Config, job: Job)
    ensures Feasible(cfg, job.(quarantined := "")) == Feasible(cfg, job)
  {
  }

  lemma NothingChanges(run: RunData, byId: map<string, Job>)
    requires ChangedIds(run) == {}
    ensures RefreshRun(run, byId) == run
  {
    forall id | id in run.jobs ensures !Changes(run.jobs[id].status) {
      assert id !in ChangedIds(run);
    }
  }

  // Replaces the placements of the queued and failed jobs of a saved run. It
  // succeeds exactly when the edited matrix expands, nothing runs,
  // every job to be replaced is in the plan and stays placeable, and the files
  // can be written (nothing is written when there is nothing to replace); on
  // any error neither the state nor a record has changed.
  method RefreshRunConfig(st: RunState, cfg: Config, plan: Plan, files: Files) returns (r: RefreshResult)
    requires st.Valid() && ValidConfig(cfg)
    modifies st
    ensures st.Valid()
    ensures r.Failed? ==> unchanged(st)
    ensures r.Refreshed? <==>
      && Expanded(plan, EVERYTHING).Some?
      && var byId := ById(Expanded(plan, EVERYTHING).value);
         && Matched(old(st.run), byId) && StaysPlaceable(cfg, old(st.run), byId)
         && (ChangedIds(old(st.run)) == {} || files == Files(true, true, true, true, true))
    ensures r.Refreshed? ==>
      && st.run == RefreshRun(old(st.run), ById(Expanded(plan, EVERYTHING).value))
      && r.count == |ChangedIds(old(st.run))|
    ensures r.backup ==> files.create
  {
    hide ValidConfig, Matched, StaysPlaceable, Gathered, Unplaceable, RefreshRun, Copied, DropSweeps, ById;
    hide RunState.ValidBut, RunState.Valid, Expanded, Distinct;
    var expanded := ExpandJobs(plan, EVERYTHING);
    if expanded.None? {
      return Failed(BadMatrix, false);
    }
    var duplicate, byId := IndexById(expanded.value);
    if duplicate.Some? {
      // The expansion itself has refused repeated ids.
      ExpansionCommutesWithFiltering(plan, EVERYTHING);
      assert false;
    }
    var error, jobs, cooldowns, candidates := Replacements(st, byId);
    if error.Some? {
      return Failed(error.value, false);
    }
    GatheredPlaceable(cfg, candidates, st.run, byId);
    var bad := ValidatePlaceable(cfg, candidates);
    if bad != [] {
      return Failed(NotPlaceable, false);
    }
    CandidatesCount(candidates, st.run, byId);
    if |candidates| == 0 {
      NothingChanges(st.run, byId);
      return Refreshed(0, false);
    }
    if !files.read || !files.create {
      return Failed(Storage, false);
    }
    if !files.write || !files.close || !files.save {
      return Failed(Storage, true);
    }
    Install(st, jobs, cooldowns, byId);
    r := Refreshed(|candidates|, true);
  }

  lemma CandidatesCount(candidates: seq<Job>, run: RunData, byId: map<string, Job>)
    requires Gathered(candidates, run, byId, ChangedIds(run))
    ensures |candidates| == |ChangedIds(run)|
    ensures |candidates| == 0 <==> ChangedIds(run) == {}
  {
  }

  method Install(
      st: RunState, jobs: map<string, JobRecord>, cooldowns: map<CooldownKey, int>,
      ghost byId: map<string, Job>)
    requires st.Valid() && Copied(jobs, st.run, byId, st.run.jobs.Keys)
    requires cooldowns == DropSweeps(st.run.cooldowns, ChangedIds(st.run))
    modifies st
    ensures st.Valid() && st.run == RefreshRun(old(st.run), byId)
  {
    hide RefreshRecord, DropSweeps, RefreshRun, JobRecord.Value;
    st.KnownAll();
    RefreshedParts(st.run, byId);
    st.jobs, st.cooldowns := jobs, cooldowns;
    st.run := RefreshRun(st.run, byId);
  }

  lemma RefreshedParts(run: RunData, byId: map<string, Job>)
    ensures var t := RefreshRun(run, byId);
      && t.order == run.order && t.jobs.Keys == run.jobs.Keys
      && t.cooldowns == DropSweeps(run.cooldowns, ChangedIds(run))
      && forall id :: id in run.jobs ==> t.jobs[id] == RefreshRecord(run.jobs[id], id, byId)
  {
    hide RefreshRecord, DropSweeps;
  }

  // ------------------------------------------------------------- what it keeps

  // A refresh keeps order, statuses and attempts, leaves passed and quarantined
  // jobs alone, and gives every other job the planned placement, a fresh sweep
  // and no sweep cooldown.
  lemma RefreshKeepsHistory(run: RunData, byId: map<string, Job>, id: string)
    requires Matched(run, byId) && id in run.jobs
    ensures var t := RefreshRun(run, byId);
      && t.order == run.order && t.jobs.Keys == run.jobs.Keys
      && t.jobs[id].status == run.jobs[id].status && t.jobs[id].attempts == run.jobs[id].attempts
      && (Retired(run.jobs[id].status) ==>
            t.jobs[id] == run.jobs[id] && (StockoutKey(id) in t.cooldowns <==> StockoutKey(id) in run.cooldowns))
      && (!Retired(run.jobs[id].status) ==>
            id in byId && t.jobs[id].job.zones == byId[id].zones && t.jobs[id].job.cpuCost == byId[id].cpuCost
            && t.jobs[id].job.budgetKey == byId[id].budgetKey
            && t.jobs[id].job == run.jobs[id].job.(zones := t.jobs[id].job.zones,
                 cpuCost := t.jobs[id].job.cpuCost, budgetKey := t.jobs[id].job.budgetKey)
            && t.jobs[id].swept == {} && t.jobs[id].rounds == 0 && StockoutKey(id) !in t.cooldowns)
      && (forall key :: key in t.cooldowns ==> key in run.cooldowns && t.cooldowns[key] == run.cooldowns[key])
      && (forall key :: key in run.cooldowns && !key.StockoutKey? ==> key in t.cooldowns)
  {
  }

  // The refreshed run is valid under the new configuration, whatever the old
  // one was, so everything proved of valid runs holds of the run that follows.
  lemma RefreshedRunIsValid(before: Config, cfg: Config, run: RunData, plan: seq<Job>)
    requires ValidRun(before, run) && Matched(run, ById(plan)) && StaysPlaceable(cfg, run, ById(plan))
    requires forall j :: j in plan ==> ValidJob(j)
    ensures ValidRun(cfg, RefreshRun(run, ById(plan)))
  {
    hide Feasible, ById, RefreshRun, Matched, ValidRun;
    var byId := ById(plan);
    ByIdKeys(plan);
    OrderOf(before, run);
    var t := RefreshRun(run, byId);
    RefreshKeys(run, byId);
    forall id | id in t.jobs
      ensures ValidRecord(id, t.jobs[id]) && SweepOK(cfg, t.cooldowns, id, t.jobs[id])
    {
      RefreshedRecordIsValid(before, cfg, run, byId, id);
    }
    RunOf(cfg, t);
  }

  lemma RefreshKeys(run: RunData, byId: map<string, Job>)
    ensures RefreshRun(run, byId).order == run.order && RefreshRun(run, byId).jobs.Keys == run.jobs.Keys
  {
  }

  lemma RunOf(cfg: Config, run: RunData)
    requires Distinct(run.order) && forall id :: id in run.order <==> id in run.jobs
    requires forall id :: id in run.jobs ==>
        ValidRecord(id, run.jobs[id]) && SweepOK(cfg, run.cooldowns, id, run.jobs[id])
    ensures ValidRun(cfg, run)
  {
  }

  lemma RefreshedRecordIsValid(before: Config, cfg: Config, run: RunData, byId: map<string, Job>, id: string)
    requires ValidRun(before, run) && Matched(run, byId) && StaysPlaceable(cfg, run, byId)
    requires id in run.jobs && forall i :: i in byId ==> ValidJob(byId[i])
    ensures var t := RefreshRun(run, byId);
      && id in t.jobs
      && ValidRecord(id, t.jobs[id]) && SweepOK(cfg, t.cooldowns, id, t.jobs[id])
  {
    hide Feasible, ValidRun, DropSweeps;
    RecordOf(before, run, id);
    var rec := run.jobs[id];
    if Changes(rec.status) {
      assert id in ChangedIds(run);
      var z :| z in Feasible(cfg, RefreshJob(rec.job, byId[id]));
      assert z !in RefreshRun(run, byId).jobs[id].swept;
    }
  }
}
