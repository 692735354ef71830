// Recovery of a saved run, and its read-only mirror, on the mutable state.
module Resuming {
  import opened Names
  import opened Jobs
  import opened Budgets
  import opened Spec
  import opened Accounting
  import opened Invariants
  import opened State
  import opened ResumeSpec
  import opened Scheduling

  // The open attempt, if the record has one, is closed with the answer.
  method CloseAnswered(st: RunState, id: string, cls: Class, now: int)
    requires st.Valid() && id in st.jobs
    modifies st`run, st.Rec(id)`attempts
    ensures st.Valid() && id in old(st.run).jobs
    ensures st.run == WithRecord(old(st.run), id, Attached(old(st.run).jobs[id], now, cls))
    ensures st.jobs[id].attempts == [] <==> old(st.jobs[id].attempts) == []
  {
    hide RunState.Valid, RunState.ValidBut, CloseAttempt;
    st.Known(id);
    if st.Rec(id).attempts != [] {
      st.Close(id, now, Classified(cls));
      st.Known(id);
      ClosedKeepsLength(old(st.run).jobs[id], now, Classified(cls));
    } else {
      assert st.run.jobs == st.run.jobs[id := st.run.jobs[id]];
    }
  }

  lemma ClosedKeepsLength(rec: Record, end: int, outcome: Outcome)
    requires |rec.attempts| > 0
    ensures |CloseAttempt(rec, end, outcome).attempts| == |rec.attempts|
  {
  }

  lemma AttachParts(cfg: Config, run: RunData, now: int, id: string, cls: Class)
    requires id in run.jobs
    ensures var rec := Attached(run.jobs[id], now, cls);
      var closed := WithRecord(run, id, rec);
      var status := match cls { case Pass => Passed case Fail => FailedReal case _ => Queued };
      && id in closed.jobs && closed.jobs[id] == rec
      && Attach(cfg, run, now, id, cls) ==
           if cls.Stockout? && |rec.attempts| > 0
             then Spec.RecordStockout(cfg, closed, now, id, rec.attempts[|rec.attempts| - 1].zone)
           else closed.(jobs := closed.jobs[id := rec.(status := status)])
  {
    hide Spec.RecordStockout, Attached;
  }

  // A container that outlived its scheduler is awaited and its result recorded.
  method AttachTo(sched: Scheduler, id: string, cls: Class, now: int) returns (requeued: bool)
    requires sched.Valid() && id in sched.st.jobs
    modifies sched.st`cooldowns, sched.st`run, sched.st.Rec(id)
    ensures sched.Valid() && id in old(sched.st.run).jobs && id in sched.st.run.jobs
    ensures sched.st.run == Attach(sched.cfg, old(sched.st.run), now, id, cls)
    ensures requeued <==> sched.st.run.jobs[id].status.Queued?
  {
    hide RunState.Valid, RunState.ValidBut, Spec.RecordStockout, Attached, Attach, WithRecord;
    var st := sched.st;
    st.Known(id);
    AttachParts(sched.cfg, st.run, now, id, cls);
    CloseAnswered(st, id, cls, now);
    st.Known(id);
    match cls {
      case Pass => st.SetStatus(id, Passed);
      case Fail => st.SetStatus(id, FailedReal);
      case Stockout =>
        var attempts := st.Rec(id).attempts;
        if |attempts| > 0 {
          sched.RecordStockout(id, attempts[|attempts| - 1].zone, now);
        } else {
          st.SetStatus(id, Queued);
        }
      case _ => st.SetStatus(id, Queued);
    }
    st.Known(id);
    requeued := st.Rec(id).status == Queued;
  }

  method ResumeTurn(sched: Scheduler, id: string, c: Containers, onlyFailed: bool, now: int) returns (requeued: bool)
    requires sched.Valid() && id in sched.st.jobs
    modifies sched.st`cooldowns, sched.st`run, sched.st.Rec(id)
    ensures sched.Valid() && id in old(sched.st.run).jobs && id in sched.st.run.jobs
    ensures sched.st.run == ResumeOne(sched.cfg, old(sched.st.run), now, id, c, onlyFailed)
    ensures requeued <==> sched.st.run.jobs[id].status.Queued?
  {
    hide RunState.Valid, RunState.ValidBut, Attach, Orphan;
    var st := sched.st;
    st.Known(id);
    requeued := false;
    match st.Rec(id).status {
      case Queued => requeued := true;
      case Running =>
        if id in c.exist {
          requeued := AttachTo(sched, id, ResultOf(c, id), now);
        } else {
          st.MarkOrphaned(id);
          st.SetStatus(id, Queued);
          requeued := true;
        }
      case FailedInfra =>
        st.ForgetSweeps(id);
        st.SetStatus(id, Queued);
        requeued := true;
      case FailedReal =>
        if onlyFailed {
          st.SetStatus(id, Queued);
          requeued := true;
        }
      case _ =>
    }
  }

  // Returns the number of jobs left queued.
  method PrepareResume(sched: Scheduler, c: Containers, onlyFailed: bool, now: int) returns (requeued: nat)
    requires sched.Valid() && Distinct(sched.st.order)
    modifies sched.st, sched.st.jobs.Values
    ensures sched.Valid() && sched.st.order == old(sched.st.order)
    ensures forall id :: id in old(sched.st.order) ==> id in old(sched.st.run).jobs
    ensures sched.st.run == ResumeFrom(sched.cfg, old(sched.st.run), now, old(sched.st.order), c, onlyFailed)
    ensures requeued == |InOrder(sched.st.order, QueuedIds(sched.st.run))|
  {
    hide RunState.Valid, RunState.ValidBut, ResumeOne, QueuedIds, InOrder;
    var st := sched.st;
    var order := st.order;
    st.KnownAll();
    requeued := 0;
    ghost var run := st.run;
    NoneListed(run);
    for i := 0 to |order|
      invariant sched.Valid() && st.order == order && st.jobs == old(st.jobs) && st.run.jobs.Keys == run.jobs.Keys
      invariant forall id :: id in order ==> id in st.jobs && id in st.run.jobs
      invariant ResumeFrom(sched.cfg, st.run, now, order[i..], c, onlyFailed)
          == ResumeFrom(sched.cfg, run, now, order, c, onlyFailed)
      invariant requeued == |InOrder(order[..i], QueuedIds(st.run))|
    {
      ghost var before := st.run;
      assert order[i..][0] == order[i] && order[i..][1..] == order[i + 1..];
      var again := ResumeTurn(sched, order[i], c, onlyFailed, now);
      if again {
        requeued := requeued + 1;
      }
      OneMoreTurn(sched.cfg, before, now, order, i, c, onlyFailed);
      st.Known(order[i]);
    }
    assert order[..|order|] == order;
    st.KnownAll();
  }

  lemma NoneListed(run: RunData)
    ensures InOrder([], QueuedIds(run)) == []
  {
  }

  // A turn changes its own job alone, so the count of those before it stands.
  lemma OneMoreTurn(cfg: Config, run: RunData, now: int, order: seq<string>, i: nat, c: Containers, onlyFailed: bool)
    requires Distinct(order) && i < |order| && order[i] in run.jobs
    ensures var t := ResumeOne(cfg, run, now, order[i], c, onlyFailed);
      InOrder(order[..i + 1], QueuedIds(t))
      == InOrder(order[..i], QueuedIds(run)) + (if t.jobs[order[i]].status.Queued? then [order[i]] else [])
  {
    hide ResumeOne;
    var t := ResumeOne(cfg, run, now, order[i], c, onlyFailed);
    ResumeOneAlone(cfg, run, now, order[i], c, onlyFailed);
    assert order[..i + 1][..i] == order[..i];
    InOrderFrame(order[..i], QueuedIds(t), QueuedIds(run));
  }

  lemma ResumeOneAlone(cfg: Config, run: RunData, now: int, id: string, c: Containers, onlyFailed: bool)
    requires id in run.jobs
    ensures var t := ResumeOne(cfg, run, now, id, c, onlyFailed);
      forall i :: i in run.jobs && i != id ==> t.jobs[i] == run.jobs[i]
  {
    hide Fits, SweepDelay, CloseLast;
  }

  function InfraIds(run: RunData): set<string> {
    set id | id in run.jobs && run.jobs[id].status.FailedInfra?
  }

  function OrphanIds(run: RunData, c: Containers): set<string> {
    set id | id in run.jobs && run.jobs[id].status.Running? && id !in c.exist
  }

  lemma NoneInPlan(run: RunData, c: Containers, onlyFailed: bool)
    ensures InOrder([], RequeueIds(run, c, onlyFailed)) == [] && InOrder([], AttachIds(run, c)) == []
    ensures InOrder([], InfraIds(run)) == [] && InOrder([], OrphanIds(run, c)) == []
  {
  }

  lemma PlanStep(run: RunData, c: Containers, onlyFailed: bool, order: seq<string>, i: nat)
    requires i < |order| && order[i] in run.jobs
    ensures var id := order[i];
      var rec := run.jobs[id];
      && InOrder(order[..i + 1], RequeueIds(run, c, onlyFailed))
         == InOrder(order[..i], RequeueIds(run, c, onlyFailed))
           + (if WouldRequeue(rec, id, c, onlyFailed) then [id] else [])
      && InOrder(order[..i + 1], AttachIds(run, c))
         == InOrder(order[..i], AttachIds(run, c)) + (if WouldAttach(rec, id, c) then [id] else [])
      && InOrder(order[..i + 1], InfraIds(run))
         == InOrder(order[..i], InfraIds(run)) + (if rec.status.FailedInfra? then [id] else [])
      && InOrder(order[..i + 1], OrphanIds(run, c))
         == InOrder(order[..i], OrphanIds(run, c)) + (if rec.status.Running? && id !in c.exist then [id] else [])
  {
    hide InOrder, WouldRequeue, WouldAttach;
    InOrderStep(order, i, RequeueIds(run, c, onlyFailed));
    InOrderStep(order, i, AttachIds(run, c));
    InOrderStep(order, i, InfraIds(run));
    InOrderStep(order, i, OrphanIds(run, c));
  }

  // The plan of a resume, without touching anything.
  method DryRunResumePlan(st: RunState, c: Containers, onlyFailed: bool)
    returns (requeue: seq<string>, attach: seq<string>, infraCount: nat, orphanCount: nat)
    requires st.Valid()
    ensures requeue == InOrder(st.order, RequeueIds(st.run, c, onlyFailed))
    ensures attach == InOrder(st.order, AttachIds(st.run, c))
    ensures infraCount == |InOrder(st.order, InfraIds(st.run))|
    ensures orphanCount == |InOrder(st.order, OrphanIds(st.run, c))|
  {
    hide RunState.Valid, RunState.ValidBut, InOrder, RequeueIds, AttachIds, InfraIds, OrphanIds;
    requeue, attach, infraCount, orphanCount := [], [], 0, 0;
    NoneInPlan(st.run, c, onlyFailed);
    st.KnownAll();
    for i := 0 to |st.order|
      invariant requeue == InOrder(st.order[..i], RequeueIds(st.run, c, onlyFailed))
      invariant attach == InOrder(st.order[..i], AttachIds(st.run, c))
      invariant infraCount == |InOrder(st.order[..i], InfraIds(st.run))|
      invariant orphanCount == |InOrder(st.order[..i], OrphanIds(st.run, c))|
    {
      var id := st.order[i];
      st.Known(id);
      PlanStep(st.run, c, onlyFailed, st.order, i);
      match st.Rec(id).status {
        case Queued => requeue := requeue + [id];
        case Running =>
          if id in c.exist {
            attach := attach + [id];
          } else {
            requeue := requeue + [id];
            orphanCount := orphanCount + 1;
          }
        case FailedInfra =>
          requeue := requeue + [id];
          infraCount := infraCount + 1;
        case FailedReal =>
          if onlyFailed {
            requeue := requeue + [id];
          }
        case _ =>
      }
    }
    assert st.order[..|st.order|] == st.order;
  }
}
