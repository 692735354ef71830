// Crash recovery: what prepareResume makes of a saved run, and its read-only
// mirror.
module ResumeSpec {
  import opened Names
  import opened Jobs
  import opened Budgets
  import opened Spec
  import opened Accounting
  import opened Invariants
  import opened Termination
  import Completions

  // How the containers of a saved run answer: does one exist for the job, and
  // what does its result turn out to be.
  datatype Containers = Containers(exist: set<string>, results: map<string, Class>)

  function ResultOf(c: Containers, id: string): Class {
    GetOr(c.results, id, Error)
  }

  function Attached(rec: Record, now: int, cls: Class): Record {
    if rec.attempts == [] then rec else CloseAttempt(rec, now, Classified(cls))
  }

  function Orphan(rec: Record): Record {
    if rec.attempts == [] then rec
    else
      var n := |rec.attempts| - 1;
      rec.(attempts := rec.attempts[n := rec.attempts[n].(outcome := Orphaned)])
  }

  function WithRecord(run: RunData, id: string, rec: Record): RunData {
    run.(jobs := run.jobs[id := rec])
  }

  // A container that outlived the orchestrator is awaited and its result
  // recorded; unlike a live completion, retry caps other than the stockout
  // sweeps are not applied and a test failure is final.
  function Attach(cfg: Config, run: RunData, now: int, id: string, cls: Class): RunData
    requires id in run.jobs
  {
    var rec := Attached(run.jobs[id], now, cls);
    match cls
    case Pass => WithRecord(run, id, rec.(status := Passed))
    case Fail => WithRecord(run, id, rec.(status := FailedReal))
    case Stockout =>
      if rec.attempts == [] then WithRecord(run, id, rec.(status := Queued))
      else RecordStockout(cfg, WithRecord(run, id, rec), now, id, LastZone(rec))
    case _ => WithRecord(run, id, rec.(status := Queued))
  }

  function ResumeOne(cfg: Config, run: RunData, now: int, id: string, c: Containers, onlyFailed: bool): (r: RunData)
    requires id in run.jobs
    ensures r.jobs.Keys == run.jobs.Keys && r.order == run.order
  {
    var rec := run.jobs[id];
    match rec.status
    case Running =>
      if id in c.exist then Attach(cfg, run, now, id, ResultOf(c, id))
      else WithRecord(run, id, Orphan(rec).(status := Queued))
    case FailedInfra =>
      var queued := WithRecord(run, id, rec.(swept := {}, rounds := 0, status := Queued));
      queued.(cooldowns := run.cooldowns - {StockoutKey(rec.job.id)})
    case FailedReal => if onlyFailed then WithRecord(run, id, rec.(status := Queued)) else run
    case _ => run
  }

  function ResumeFrom(
      cfg: Config, run: RunData, now: int, ids: seq<string>, c: Containers, onlyFailed: bool): (r: RunData)
    requires forall id :: id in ids ==> id in run.jobs
    ensures r.jobs.Keys == run.jobs.Keys && r.order == run.order
    decreases |ids|
  {
    if ids == [] then run
    else ResumeFrom(cfg, ResumeOne(cfg, run, now, ids[0], c, onlyFailed), now, ids[1..], c, onlyFailed)
  }

  // The members of a list that a set keeps, in list order.
  function InOrder(ids: seq<string>, keep: set<string>): (r: seq<string>)
    ensures forall id :: id in r <==> id in ids && id in keep
  {
    if ids == [] then []
    else
      assert ids == ids[..|ids| - 1] + [ids[|ids| - 1]];
      var front := InOrder(ids[..|ids| - 1], keep);
      var id := ids[|ids| - 1];
      if id in keep then front + [id] else front
  }

  lemma {:induction false} InOrderFrame(ids: seq<string>, keep: set<string>, keep': set<string>)
    requires forall id :: id in ids ==> (id in keep <==> id in keep')
    ensures InOrder(ids, keep) == InOrder(ids, keep')
  {
    if ids != [] {
      InOrderFrame(ids[..|ids| - 1], keep, keep');
    }
  }

  lemma InOrderStep(ids: seq<string>, i: nat, keep: set<string>)
    requires i < |ids|
    ensures InOrder(ids[..i + 1], keep) == InOrder(ids[..i], keep) + (if ids[i] in keep then [ids[i]] else [])
  {
    assert ids[..i + 1][..i] == ids[..i];
  }

  function QueuedIds(run: RunData): set<string> {
    set id | id in run.jobs && run.jobs[id].status.Queued?
  }

  // ---------------------------------------------------------- one job at a time

  // What resuming does to one record and its sweep cooldown.
  ghost predicate ResumeChanges(run: RunData, run': RunData, id: string)
    requires id in run.jobs
  {
    && id in run'.jobs && run'.order == run.order && run'.jobs == run.jobs[id := run'.jobs[id]]
    && run'.jobs[id].job == run.jobs[id].job
    && forall key :: key != StockoutKey(id) ==>
         (key in run'.cooldowns <==> key in run.cooldowns)
         && (key in run.cooldowns ==> run'.cooldowns[key] == run.cooldowns[key])
  }

  lemma ResumeOneChanges(cfg: Config, run: RunData, now: int, id: string, c: Containers, onlyFailed: bool)
    requires id in run.jobs && run.jobs[id].job.id == id
    ensures ResumeChanges(run, ResumeOne(cfg, run, now, id, c, onlyFailed), id)
  {
    hide Fits, SweepDelay, CloseLast;
    assert run.jobs == run.jobs[id := run.jobs[id]];
  }

  lemma OpenZone(cfg: Config, run: RunData, id: string)
    requires ValidRun(cfg, run) && id in run.jobs && run.jobs[id].status.Running?
    ensures var rec := run.jobs[id];
      && IsOpen(rec) && LastZone(rec) in Feasible(cfg, rec.job) && LastZone(rec) !in rec.swept
      && StockoutKey(id) !in run.cooldowns && Feasible(cfg, rec.job) != {} && Untried(cfg, rec)
  {
    hide Feasible;
    assert ValidRecord(id, run.jobs[id]) && SweepOK(cfg, run.cooldowns, id, run.jobs[id]);
  }

  // The record after its turn: never running, its attempts all closed, and a
  // feasible zone left or a sweep to wait for.
  lemma ResumeOneRecord(cfg: Config, run: RunData, now: int, id: string, c: Containers, onlyFailed: bool)
    requires ValidRun(cfg, run) && id in run.jobs
    ensures var t := ResumeOne(cfg, run, now, id, c, onlyFailed);
      && ValidRecord(id, t.jobs[id]) && SweepOK(cfg, t.cooldowns, id, t.jobs[id])
      && !t.jobs[id].status.Running?
  {
    hide ValidRun, Feasible, Attach;
    var rec := run.jobs[id];
    RecordOf(cfg, run, id);
    if rec.status.Running? {
      OpenZone(cfg, run, id);
      if id in c.exist {
        AttachRecord(cfg, run, now, id, ResultOf(c, id));
      }
    } else if rec.status.FailedInfra? {
      var z :| z in Feasible(cfg, rec.job);
      assert z !in rec.(swept := {}).swept;
    }
  }

  lemma AttachRecord(cfg: Config, run: RunData, now: int, id: string, cls: Class)
    requires id in run.jobs && ValidRecord(id, run.jobs[id]) && run.jobs[id].status.Running?
    requires SweepOK(cfg, run.cooldowns, id, run.jobs[id])
    ensures var t := Attach(cfg, run, now, id, cls);
      && id in t.jobs && ValidRecord(id, t.jobs[id]) && SweepOK(cfg, t.cooldowns, id, t.jobs[id])
      && !t.jobs[id].status.Running?
  {
    hide Feasible, RecordStockout;
    var rec := Attached(run.jobs[id], now, cls);
    if cls.Stockout? {
      Completions.RecordStockoutSweepOK(cfg, WithRecord(run, id, rec), now, id, LastZone(rec));
      StockoutOutcome(cfg, WithRecord(run, id, rec), now, id, LastZone(rec));
    }
  }

  // -------------------------------------------------------- over the whole run

  // The jobs listed have had their turn.
  ghost predicate Visited(run: RunData, ids: seq<string>) {
    forall id :: id in ids && id in run.jobs ==> !run.jobs[id].status.Running?
  }

  lemma ChangesKeepOthers(cfg: Config, run: RunData, run': RunData, id: string, other: string)
    requires id in run.jobs && ResumeChanges(run, run', id) && other in run.jobs && other != id
    requires SweepOK(cfg, run.cooldowns, other, run.jobs[other])
    ensures other in run'.jobs && run'.jobs[other] == run.jobs[other]
    ensures SweepOK(cfg, run'.cooldowns, other, run'.jobs[other])
  {
    hide Feasible;
  }

  lemma ResumeOneKeepsRun(cfg: Config, run: RunData, now: int, id: string, c: Containers, onlyFailed: bool)
    requires ValidRun(cfg, run) && id in run.jobs
    ensures ValidRun(cfg, ResumeOne(cfg, run, now, id, c, onlyFailed))
  {
    hide ResumeOne, ResumeChanges, SweepOK;
    var t := ResumeOne(cfg, run, now, id, c, onlyFailed);
    assert ValidRecord(id, run.jobs[id]);
    ResumeOneChanges(cfg, run, now, id, c, onlyFailed);
    ResumeOneRecord(cfg, run, now, id, c, onlyFailed);
    forall i | i in t.jobs ensures ValidRecord(i, t.jobs[i]) && SweepOK(cfg, t.cooldowns, i, t.jobs[i]) {
      if i != id { ChangesKeepOthers(cfg, run, t, id, i); }
    }
  }

  // A turn leaves the others alone, and its own job not running.
  lemma ResumeOneOnJob(cfg: Config, run: RunData, now: int, turn: string, c: Containers, onlyFailed: bool, id: string)
    requires ValidRun(cfg, run) && turn in run.jobs && id in run.jobs
    ensures var t := ResumeOne(cfg, run, now, turn, c, onlyFailed);
      && t.jobs[id].job == run.jobs[id].job
      && (id != turn ==> t.jobs[id] == run.jobs[id])
      && (id == turn ==> !t.jobs[id].status.Running?)
  {
    assert ValidRecord(turn, run.jobs[turn]) by { hide SweepOK; }
    hide ResumeOne, ValidRun;
    ResumeOneChanges(cfg, run, now, turn, c, onlyFailed);
    ResumeOneRecord(cfg, run, now, turn, c, onlyFailed);
  }

  lemma {:induction false} ResumeKeepsValid(
      cfg: Config, run: RunData, now: int, ids: seq<string>, c: Containers, onlyFailed: bool)
    requires ValidRun(cfg, run) && forall id :: id in ids ==> id in run.jobs
    ensures ValidRun(cfg, ResumeFrom(cfg, run, now, ids, c, onlyFailed))
    decreases |ids|
  {
    hide ResumeOne, ValidRun;
    if ids != [] {
      ResumeOneKeepsRun(cfg, run, now, ids[0], c, onlyFailed);
      ResumeKeepsValid(cfg, ResumeOne(cfg, run, now, ids[0], c, onlyFailed), now, ids[1..], c, onlyFailed);
    }
  }

  // A job keeps its plan, its record until its turn, and does not run after it.
  lemma {:induction false} ResumeOnJob(
      cfg: Config, run: RunData, now: int, ids: seq<string>, c: Containers, onlyFailed: bool, id: string)
    requires ValidRun(cfg, run) && (forall i :: i in ids ==> i in run.jobs) && id in run.jobs
    ensures var t := ResumeFrom(cfg, run, now, ids, c, onlyFailed);
      && t.jobs[id].job == run.jobs[id].job
      && (id !in ids ==> t.jobs[id] == run.jobs[id])
      && (Distinct(ids) && id in ids ==> !t.jobs[id].status.Running?)
    decreases |ids|
  {
    hide ResumeOne, ValidRun;
    if ids != [] {
      var t := ResumeOne(cfg, run, now, ids[0], c, onlyFailed);
      ResumeOneKeepsRun(cfg, run, now, ids[0], c, onlyFailed);
      ResumeOneOnJob(cfg, run, now, ids[0], c, onlyFailed, id);
      ResumeOnJob(cfg, t, now, ids[1..], c, onlyFailed, id);
      assert id in ids <==> id == ids[0] || id in ids[1..];
    }
  }

  // Resuming keeps the run valid and ends every running job, whatever the
  // containers answer.
  lemma ResumeKeepsRun(
      cfg: Config, run: RunData, now: int, ids: seq<string>, c: Containers, onlyFailed: bool)
    requires ValidRun(cfg, run) && Distinct(ids) && forall id :: id in ids ==> id in run.jobs
    ensures var t := ResumeFrom(cfg, run, now, ids, c, onlyFailed);
      && ValidRun(cfg, t) && Visited(t, ids)
      && forall id :: id in run.jobs ==>
           t.jobs[id].job == run.jobs[id].job && (id !in ids ==> t.jobs[id] == run.jobs[id])
  {
    hide ResumeFrom, ValidRun, Distinct;
    ResumeKeepsValid(cfg, run, now, ids, c, onlyFailed);
    forall id | id in run.jobs
      ensures var t := ResumeFrom(cfg, run, now, ids, c, onlyFailed);
        && t.jobs[id].job == run.jobs[id].job && (id !in ids ==> t.jobs[id] == run.jobs[id])
        && (id in ids ==> !t.jobs[id].status.Running?)
    {
      ResumeOnJob(cfg, run, now, ids, c, onlyFailed, id);
    }
  }

  // ------------------------------------------------------------- the dry run

  // The jobs a dry run announces as queued again.
  predicate WouldRequeue(rec: Record, id: string, c: Containers, onlyFailed: bool) {
    || rec.status.Queued? || rec.status.FailedInfra?
    || (rec.status.Running? && id !in c.exist)
    || (rec.status.FailedReal? && onlyFailed)
  }

  // The jobs it announces as awaited.
  predicate WouldAttach(rec: Record, id: string, c: Containers) {
    rec.status.Running? && id in c.exist
  }

  // Whether the answer of an awaited container queues its job again: always,
  // unless it passed, failed a test, or ran out of its last sweep.
  predicate AnswerRequeues(cfg: Config, rec: Record, cls: Class) {
    match cls
    case Pass => false
    case Fail => false
    case Stockout =>
      || rec.attempts == []
      || !(Feasible(cfg, rec.job) <= rec.swept + {LastZone(rec)} && rec.rounds + 1 >= cfg.retries.stockout)
    case _ => true
  }

  function RequeueIds(run: RunData, c: Containers, onlyFailed: bool): set<string> {
    set id | id in run.jobs && WouldRequeue(run.jobs[id], id, c, onlyFailed)
  }

  function AttachIds(run: RunData, c: Containers): set<string> {
    set id | id in run.jobs && WouldAttach(run.jobs[id], id, c)
  }

  lemma ResumeOneQueues(cfg: Config, run: RunData, now: int, id: string, c: Containers, onlyFailed: bool)
    requires id in run.jobs
    ensures var rec := run.jobs[id];
      ResumeOne(cfg, run, now, id, c, onlyFailed).jobs[id].status.Queued?
      <==>
        || WouldRequeue(rec, id, c, onlyFailed)
        || (WouldAttach(rec, id, c) && AnswerRequeues(cfg, rec, ResultOf(c, id)))
  {
    hide RecordStockout, Feasible;
    var rec := run.jobs[id];
    if rec.status.Running? && id in c.exist && ResultOf(c, id).Stockout? && rec.attempts != [] {
      var closed := Attached(rec, now, Stockout);
      StockoutOutcome(cfg, WithRecord(run, id, closed), now, id, LastZone(closed));
    }
  }

  // Resuming turns a job into what its own turn makes of it.
  lemma {:induction false} ResumeFromOwnTurn(
      cfg: Config, run: RunData, now: int, ids: seq<string>, c: Containers, onlyFailed: bool, id: string)
    requires ValidRun(cfg, run) && Distinct(ids) && forall i :: i in ids ==> i in run.jobs
    requires id in ids
    ensures ResumeFrom(cfg, run, now, ids, c, onlyFailed).jobs[id].status.Queued?
      <==> WouldRequeue(run.jobs[id], id, c, onlyFailed)
           || (WouldAttach(run.jobs[id], id, c) && AnswerRequeues(cfg, run.jobs[id], ResultOf(c, id)))
    decreases |ids|
  {
    hide ResumeOne, ValidRun, WouldRequeue, AnswerRequeues, WouldAttach;
    var t := ResumeOne(cfg, run, now, ids[0], c, onlyFailed);
    ResumeOneKeepsRun(cfg, run, now, ids[0], c, onlyFailed);
    if id == ids[0] {
      ResumeKeepsRun(cfg, t, now, ids[1..], c, onlyFailed);
      ResumeOneQueues(cfg, run, now, id, c, onlyFailed);
    } else {
      ResumeOneOnJob(cfg, run, now, ids[0], c, onlyFailed, id);
      assert ids == [ids[0]] + ids[1..];
      ResumeFromOwnTurn(cfg, t, now, ids[1..], c, onlyFailed, id);
    }
  }

  // The plan agrees with what resuming does: the jobs queued afterwards are
  // the announced requeues and those of the announced attachments whose
  // answers requeue them, in run order.
  lemma PlanAgreement(
      cfg: Config, run: RunData, now: int, c: Containers, onlyFailed: bool, requeue: seq<string>,
      attach: seq<string>)
    requires ValidRun(cfg, run)
    requires requeue == InOrder(run.order, RequeueIds(run, c, onlyFailed))
    requires attach == InOrder(run.order, AttachIds(run, c))
    ensures forall id :: id in attach ==> id in run.jobs
    ensures var t := ResumeFrom(cfg, run, now, run.order, c, onlyFailed);
      InOrder(run.order, QueuedIds(t)) == InOrder(run.order, (set id | id in requeue)
        + set id | id in attach && AnswerRequeues(cfg, run.jobs[id], ResultOf(c, id)))
  {
    var order := run.order;
    OrderOf(cfg, run);
    hide ValidRun, ResumeFrom, WouldRequeue, AnswerRequeues, WouldAttach, InOrder;
    var t := ResumeFrom(cfg, run, now, order, c, onlyFailed);
    var answered := set id | id in attach && AnswerRequeues(cfg, run.jobs[id], ResultOf(c, id));
    var expected := (set id | id in requeue) + answered;
    forall id | id in order ensures id in QueuedIds(t) <==> id in expected {
      ResumeFromOwnTurn(cfg, run, now, order, c, onlyFailed, id);
      PlanMembers(run, c, onlyFailed, id);
    }
    InOrderFrame(order, QueuedIds(t), expected);
  }

  lemma PlanMembers(run: RunData, c: Containers, onlyFailed: bool, id: string)
    requires id in run.order && id in run.jobs
    ensures id in InOrder(run.order, RequeueIds(run, c, onlyFailed)) <==> WouldRequeue(run.jobs[id], id, c, onlyFailed)
    ensures id in InOrder(run.order, AttachIds(run, c)) <==> WouldAttach(run.jobs[id], id, c)
  {
    hide WouldRequeue, WouldAttach;
  }
}
