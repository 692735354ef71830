// What a resume writes into the records and cooldowns of a saved run.
module ResumeRecords {
  import opened Options
  import opened Names
  import opened Jobs
  import opened Budgets
  import opened Spec
  import opened Accounting
  import opened Invariants
  import opened Termination
  import opened ResumeSpec

  // Every attempt but the last is as it was.
  ghost predicate SameBefore(before: Record, after: Record) {
    && |after.attempts| == |before.attempts| && |before.attempts| > 0
    && forall i :: 0 <= i < |before.attempts| - 1 ==> after.attempts[i] == before.attempts[i]
  }

  function LastOf(rec: Record): Attempt
    requires |rec.attempts| > 0
  {
    rec.attempts[|rec.attempts| - 1]
  }

  // The answer of an awaited container is recorded in the open attempt, with
  // the time it was recorded, and decides the status.
  ghost predicate Answered(cfg: Config, before: Record, after: Record, now: int, cls: Class) {
    && SameBefore(before, after)
    && LastOf(after) == LastOf(before).(end := now, outcome := Classified(cls))
    && (cls.Pass? ==> after.status == Passed)
    && (cls.Fail? ==> after.status == FailedReal)
    && (cls in {Quota, Timeout, Error, Infra} ==> after.status == Queued)
    && (!cls.Stockout? ==> after.swept == before.swept && after.rounds == before.rounds)
    && (cls.Stockout? ==>
          var complete := Feasible(cfg, before.job) <= before.swept + {LastOf(before).zone};
          && after.swept == before.swept + {LastOf(before).zone}
          && after.rounds == (if complete then before.rounds + 1 else before.rounds)
          && after.status == if complete && before.rounds + 1 >= cfg.retries.stockout then FailedInfra else Queued)
  }

  // What becomes of a record, by its status.
  ghost predicate ResumedAs(
      cfg: Config, before: Record, after: Record, now: int, exist: bool, cls: Class, onlyFailed: bool) {
    && after.job == before.job
    && match before.status
       case Running =>
         if exist then Answered(cfg, before, after, now, cls)
         else
           && SameBefore(before, after) && LastOf(after) == LastOf(before).(outcome := Orphaned)
           && after == before.(status := Queued, attempts := after.attempts)
       case FailedInfra => after == before.(status := Queued, swept := {}, rounds := 0)
       case FailedReal => after == if onlyFailed then before.(status := Queued) else before
       case _ => after == before
  }

  lemma OwnTurn(cfg: Config, run: RunData, now: int, id: string, c: Containers, onlyFailed: bool)
    requires ValidRun(cfg, run) && id in run.jobs
    ensures ResumedAs(cfg, run.jobs[id], ResumeOne(cfg, run, now, id, c, onlyFailed).jobs[id], now,
      id in c.exist, ResultOf(c, id), onlyFailed)
  {
    hide ValidRun, Feasible, RecordStockout, SweepOK;
    RecordOf(cfg, run, id);
    var rec := run.jobs[id];
    if rec.status.Running? && id in c.exist && ResultOf(c, id).Stockout? {
      var closed := Attached(rec, now, Stockout);
      StockoutOutcome(cfg, WithRecord(run, id, closed), now, id, LastZone(closed));
    }
  }

  // A resume does this to every listed job, and nothing to the others.
  lemma {:induction false} ResumeRecordsAnswers(
      cfg: Config, run: RunData, now: int, ids: seq<string>, c: Containers, onlyFailed: bool, id: string)
    requires ValidRun(cfg, run) && Distinct(ids) && (forall i :: i in ids ==> i in run.jobs) && id in run.jobs
    ensures var after := ResumeFrom(cfg, run, now, ids, c, onlyFailed).jobs[id];
      if id in ids then ResumedAs(cfg, run.jobs[id], after, now, id in c.exist, ResultOf(c, id), onlyFailed)
      else after == run.jobs[id]
    decreases |ids|
  {
    hide ResumeOne, ValidRun, ResumedAs;
    if ids != [] {
      var t := ResumeOne(cfg, run, now, ids[0], c, onlyFailed);
      ResumeOneKeepsRun(cfg, run, now, ids[0], c, onlyFailed);
      ResumeOneOnJob(cfg, run, now, ids[0], c, onlyFailed, id);
      ResumeRecordsAnswers(cfg, t, now, ids[1..], c, onlyFailed, id);
      assert id in ids <==> id == ids[0] || id in ids[1..];
      if id == ids[0] {
        OwnTurn(cfg, run, now, id, c, onlyFailed);
      }
    }
  }

  // So an awaited answer counts once more against its own class, and no other.
  lemma AnswersAreCounted(
      cfg: Config, run: RunData, now: int, c: Containers, onlyFailed: bool, id: string, cls: Class)
    requires ValidRun(cfg, run) && id in run.jobs && run.jobs[id].status.Running? && id in c.exist
    ensures (forall i :: i in run.order ==> i in run.jobs)
    ensures CountClass(ResumeFrom(cfg, run, now, run.order, c, onlyFailed).jobs[id].attempts, cls)
      == CountClass(run.jobs[id].attempts, cls) + (if cls == ResultOf(c, id) then 1 else 0)
  {
    hide ResumeFrom, ValidRun, CountClass, SweepOK;
    OrderOf(cfg, run);
    RecordOf(cfg, run, id);
    ResumeRecordsAnswers(cfg, run, now, run.order, c, onlyFailed, id);
    var before, after := run.jobs[id], ResumeFrom(cfg, run, now, run.order, c, onlyFailed).jobs[id];
    var answer := Classified(ResultOf(c, id));
    assert after.attempts == CloseLast(before.attempts, now, answer);
    CountClassOfClosed(before.attempts, now, answer, cls);
  }

  // ------------------------------------------------------------- cooldowns

  // The end of the cooldown of a key.
  function Until(run: RunData, key: CooldownKey): Option<int> {
    if key in run.cooldowns then Some(run.cooldowns[key]) else None
  }

  // The sweep cooldown of a job after its turn: started when an awaited answer
  // completes a sweep that is not the last, gone when the job had failed.
  function SweepUntil(cfg: Config, rec: Record, was: Option<int>, now: int, exist: bool, cls: Class): Option<int> {
    if rec.status.FailedInfra? then None
    else if rec.status.Running? && exist && cls.Stockout? && |rec.attempts| > 0 && rec.rounds >= 0
      && Feasible(cfg, rec.job) <= rec.swept + {LastOf(rec).zone} && rec.rounds + 1 < cfg.retries.stockout
    then Some(now + Wrap64(cfg.retries.cooldownBase * Pow2(rec.rounds)))
    else was
  }

  lemma OwnSweep(cfg: Config, run: RunData, now: int, id: string, c: Containers, onlyFailed: bool)
    requires ValidRun(cfg, run) && id in run.jobs
    ensures var key := StockoutKey(id);
      Until(ResumeOne(cfg, run, now, id, c, onlyFailed), key)
      == SweepUntil(cfg, run.jobs[id], Until(run, key), now, id in c.exist, ResultOf(c, id))
    ensures forall key :: key != StockoutKey(id) ==>
      Until(ResumeOne(cfg, run, now, id, c, onlyFailed), key) == Until(run, key)
  {
    hide ValidRun, Feasible, RecordStockout, SweepOK, Wrap64, Pow2;
    RecordOf(cfg, run, id);
    ResumeOneChanges(cfg, run, now, id, c, onlyFailed);
    var rec := run.jobs[id];
    if rec.status.Running? && id in c.exist && ResultOf(c, id).Stockout? {
      var closed := Attached(rec, now, Stockout);
      StockoutOutcome(cfg, WithRecord(run, id, closed), now, id, LastZone(closed));
    }
  }

  // A resume starts the cooldowns of completed sweeps, drops those of failed
  // jobs, and leaves all others alone, quota windows included.
  lemma {:induction false} ResumeKeepsCooldowns(
      cfg: Config, run: RunData, now: int, ids: seq<string>, c: Containers, onlyFailed: bool, key: CooldownKey)
    requires ValidRun(cfg, run) && Distinct(ids) && (forall i :: i in ids ==> i in run.jobs)
    ensures Until(ResumeFrom(cfg, run, now, ids, c, onlyFailed), key)
      == if key.StockoutKey? && key.id in ids
         then SweepUntil(cfg, run.jobs[key.id], Until(run, key), now, key.id in c.exist, ResultOf(c, key.id))
         else Until(run, key)
    decreases |ids|
  {
    hide ResumeOne, ValidRun, SweepUntil, Until;
    if ids != [] {
      var t := ResumeOne(cfg, run, now, ids[0], c, onlyFailed);
      ResumeOneKeepsRun(cfg, run, now, ids[0], c, onlyFailed);
      OwnSweep(cfg, run, now, ids[0], c, onlyFailed);
      ResumeKeepsCooldowns(cfg, t, now, ids[1..], c, onlyFailed, key);
      if key.StockoutKey? && key.id in ids {
        ResumeOneOnJob(cfg, run, now, ids[0], c, onlyFailed, key.id);
        assert key.id == ids[0] || key.id in ids[1..];
      }
    }
  }
}
