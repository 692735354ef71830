// The event loop returns: its script meets only so many fair turns before an
// admission pass finds nothing left to do.
module Returning {
  import opened Jobs
  import opened Budgets
  import opened Spec
  import opened Invariants
  import opened Completions
  import opened Admission
  import opened Runs
  import opened Liveness
  import opened Scheduling
  import Steps

  function EventsOf(turn: Turn): seq<Event> {
    turn.outside + [turn.wake]
  }

  // No signal during the turn.
  ghost predicate Calm(turn: Turn) {
    Undisturbed(EventsOf(turn)) && forall e :: e in EventsOf(turn) ==> !e.Admit?
  }

  // Some container completes, or none is out and every timer runs out.
  ghost predicate FairTurn(cfg: Config, w: World, turn: Turn)
    requires Inv(cfg, w.s) && Trace(cfg, Next(cfg, w, Event.Admit(turn.paused)), EventsOf(turn))
  {
    var w1 := Next(cfg, w, Event.Admit(turn.paused));
    var w2 := After(cfg, w1, EventsOf(turn));
    HasCompletion(EventsOf(turn)) || (!turn.paused && w1.s.running == 0 && TimersExpired(w2.s, w2.now))
  }

  // The fair turns the loop goes through.
  ghost function FairTurns(cfg: Config, w: World, script: seq<Turn>): nat
    requires Inv(cfg, w.s) && Plays(cfg, w, script)
    decreases |script|
  {
    if script == [] then 0
    else
      var w1 := Next(cfg, w, Event.Admit(script[0].paused));
      if Returns(w1) then 0
      else
        (if FairTurn(cfg, w, script[0]) then 1 else 0)
        + FairTurns(cfg, After(cfg, w1, EventsOf(script[0])), script[1..])
  }

  // Timers that have run out stay so until a container completes.
  lemma AdmitKeepsTimers(cfg: Config, w: World, paused: bool)
    requires Inv(cfg, w.s) && TimersExpired(w.s, w.now)
    ensures var w1 := Next(cfg, w, Event.Admit(paused)); TimersExpired(w1.s, w1.now)
  {
    hide Inv, AdmitFrom;
    if !paused && w.admitting && !w.killed {
      Steps.OrderListsJobs(cfg, w.s);
      AdmitPasses(cfg, w.s, w.now, w.s.run.order);
    }
  }

  lemma {:induction false} TraceKeepsTimers(cfg: Config, w: World, es: seq<Event>)
    requires Inv(cfg, w.s) && Trace(cfg, w, es) && TimersExpired(w.s, w.now)
    requires !HasCompletion(es) && forall e :: e in es ==> !e.Admit?
    ensures var w' := After(cfg, w, es); TimersExpired(w'.s, w'.now)
    decreases |es|
  {
    hide Inv;
    if es != [] {
      assert es[0] in es;
      assert Possible(w, es[0]) && Trace(cfg, Next(cfg, w, es[0]), es[1..]);
      assert After(cfg, w, es) == After(cfg, Next(cfg, w, es[0]), es[1..]);
      EventKeepsTimers(cfg, w, es[0]);
      NoCompletionInTail(es);
      TraceKeepsTimers(cfg, Next(cfg, w, es[0]), es[1..]);
    }
  }

  lemma NoCompletionInTail(es: seq<Event>)
    requires es != [] && !HasCompletion(es)
    ensures !es[0].Completion? && !HasCompletion(es[1..])
  {
    assert es == [es[0]] + es[1..];
  }

  lemma EventKeepsTimers(cfg: Config, w: World, e: Event)
    requires Inv(cfg, w.s) && Possible(w, e) && !e.Admit? && !e.Completion? && TimersExpired(w.s, w.now)
    ensures var w' := Next(cfg, w, e); TimersExpired(w'.s, w'.now)
  {
    hide Inv, AdmitFrom, Complete;
  }

  // No turn adds to the rank, and a fair one uses some of it up.
  lemma TurnUsesRank(cfg: Config, w: World, turn: Turn)
    requires Inv(cfg, w.s) && Runnable(cfg, w.s) && w.admitting && !w.killed && Calm(turn)
    requires var w1 := Next(cfg, w, Event.Admit(turn.paused)); !Returns(w1) && Trace(cfg, w1, EventsOf(turn))
    ensures var w2 := After(cfg, Next(cfg, w, Event.Admit(turn.paused)), EventsOf(turn));
      && Runnable(cfg, w2.s) && w2.admitting && !w2.killed
      && Rank(cfg, w2) <= Rank(cfg, w) - (if FairTurn(cfg, w, turn) then 1 else 0)
  {
    hide Next, Inv, Work, TimersExpired, ValidConfig, Returns, Runnable, Trace, After;
    var admit := Event.Admit(turn.paused);
    var w1 := Next(cfg, w, admit);
    assert Possible(w, admit);
    NextWork(cfg, w, admit);
    NextKeepsJobs(cfg, w, admit);
    TraceWork(cfg, w1, EventsOf(turn));
    TraceKeepsJobs(cfg, w1, EventsOf(turn));
    if !HasCompletion(EventsOf(turn)) {
      if TimersExpired(w.s, w.now) {
        AdmitKeepsTimers(cfg, w, turn.paused);
        TraceKeepsTimers(cfg, w1, EventsOf(turn));
      }
      if FairTurn(cfg, w, turn) {
        IdlePassHadTimers(cfg, w);
      }
    }
  }

  // A loop whose script holds more fair turns than the rank of its start has
  // returned before the end of the script.
  lemma {:induction false} LoopReturns(cfg: Config, w: World, script: seq<Turn>)
    requires Inv(cfg, w.s) && Runnable(cfg, w.s) && w.admitting && !w.killed && Plays(cfg, w, script)
    requires forall turn :: turn in script ==> Calm(turn)
    ensures RunTo(cfg, w, script).1 || FairTurns(cfg, w, script) <= Rank(cfg, w)
    decreases |script|
  {
    hide Inv, Next, Trace, After, Returns, Runnable, Rank, Calm, FairTurn, ValidConfig, Persist;
    RankKnown(cfg, w);
    if script != [] {
      var w1 := Next(cfg, w, Event.Admit(script[0].paused));
      if !Returns(w1) {
        assert script[0] in script;
        TurnUsesRank(cfg, w, script[0]);
        LoopReturns(cfg, After(cfg, w1, EventsOf(script[0])), script[1..]);
      }
    }
  }

  lemma RankKnown(cfg: Config, w: World)
    requires Inv(cfg, w.s)
    ensures ValidConfig(cfg) && Rank(cfg, w) >= 0
  {
    hide ValidRun, WithinBudgets, Flown, LiveOK, SavedAgrees, Work, TimersExpired, ValidConfig;
    RankNonNegative(cfg, w);
  }
}
