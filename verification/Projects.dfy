// How tests are given projects: the queue of shared assignments, and the
// tokens that lock a project for one test at a time.
module Projects {
  import opened Names

  // ------------------------------------------------------------- assignment

  function Count(s: seq<string>, x: string): nat {
    if s == [] then 0 else Count(s[..|s| - 1], x) + (if s[|s| - 1] == x then 1 else 0)
  }

  // In every prefix the use counts of any two projects differ by at most one.
  ghost predicate Balanced(queue: seq<string>, projects: seq<string>) {
    forall n, p, q :: 0 <= n <= |queue| && p in projects && q in projects ==>
      Count(queue[..n], p) <= Count(queue[..n], q) + 1
  }

  // A round gives every project out once; next holds those still to come in it.
  ghost predicate Round(queue: seq<string>, projects: seq<string>, next: seq<string>, round: nat) {
    && Distinct(next) && (forall p :: p in next ==> p in projects)
    && forall p :: p in projects ==> Count(queue, p) == if p in next then round else round + 1
  }

  function Without<T>(s: seq<T>, i: nat): seq<T>
    requires i < |s|
  {
    s[..i] + s[i + 1..]
  }

  lemma WithoutMembers(s: seq<string>, i: nat)
    requires i < |s| && Distinct(s)
    ensures Distinct(Without(s, i)) && forall x :: x in Without(s, i) <==> x in s && x != s[i]
  {
    var t := Without(s, i);
    forall x ensures x in t <==> x in s && x != s[i] {
      if x in s && x != s[i] {
        var k :| 0 <= k < |s| && s[k] == x;
        assert t[if k < i then k else k - 1] == x;
      }
    }
  }

  lemma RoundStep(queue: seq<string>, projects: seq<string>, next: seq<string>, round: nat, i: nat)
    requires Round(queue, projects, next, round) && i < |next|
    ensures Round(queue + [next[i]], projects, Without(next, i), round)
  {
    WithoutMembers(next, i);
    assert (queue + [next[i]])[..|queue|] == queue;
  }

  lemma BalancedStep(queue: seq<string>, projects: seq<string>, p: string, next: seq<string>, round: nat)
    requires Balanced(queue, projects) && Round(queue + [p], projects, next, round)
    ensures Balanced(queue + [p], projects)
  {
    var longer := queue + [p];
    forall n, a, b | 0 <= n <= |longer| && a in projects && b in projects
      ensures Count(longer[..n], a) <= Count(longer[..n], b) + 1
    {
      if n == |longer| {
        assert longer[..n] == longer;
      } else {
        assert longer[..n] == queue[..n];
      }
    }
  }

  // Projects in a random order, each once before any comes again. The choice
  // among those left is arbitrary.
  method AssignProjects(projects: seq<string>, tests: nat) returns (queue: seq<string>)
    requires Distinct(projects) && (tests > 0 ==> projects != [])
    ensures |queue| == tests && (forall p :: p in queue ==> p in projects)
    ensures Balanced(queue, projects)
  {
    hide Balanced, Round;
    queue := [];
    var next := projects;
    ghost var round := 0;
    FirstRound(projects);
    for k := 0 to tests
      invariant |queue| == k && (forall p :: p in queue ==> p in projects)
      invariant Balanced(queue, projects) && Round(queue, projects, next, round)
      invariant forall p :: p in next ==> p in projects
    {
      if |next| < 1 {
        NextRound(queue, projects, next, round);
        next := projects;
        round := round + 1;
      }
      var i :| 0 <= i < |next|;
      RoundStep(queue, projects, next, round, i);
      BalancedStep(queue, projects, next[i], Without(next, i), round);
      assert next[i] in projects;
      queue := queue + [next[i]];
      next := Without(next, i);
    }
  }

  lemma FirstRound(projects: seq<string>)
    requires Distinct(projects)
    ensures Balanced([], projects) && Round([], projects, projects, 0)
  {
  }

  lemma NextRound(queue: seq<string>, projects: seq<string>, next: seq<string>, round: nat)
    requires Round(queue, projects, next, round) && next == [] && Distinct(projects)
    ensures Round(queue, projects, projects, round + 1)
  {
  }

  // The tokens of exclusive projects, in a random order.
  method ExclusiveTokens(projects: seq<string>) returns (tokens: seq<string>)
    ensures multiset(tokens) == multiset(projects)
  {
    tokens := [];
    var next := projects;
    for k := 0 to |projects|
      invariant |next| == |projects| - k && multiset(tokens) + multiset(next) == multiset(projects)
    {
      var i :| 0 <= i < |next|;
      assert next == next[..i] + [next[i]] + next[i + 1..];
      tokens := tokens + [next[i]];
      next := Without(next, i);
    }
  }

  // ---------------------------------------------------------------- the pool

  // retries bounds how often the test can be recreated in another zone.
  datatype Test = Test(lock: bool, retries: nat)

  // taken is the project read from a channel, current the one the workflow
  // that now runs is set to.
  datatype Worker =
    | Idle
    | Waiting(test: Test)
    | Running(test: Test, taken: string, current: string)
    | Returning(taken: string)

  // pending tests, the buffered tokens, the closed queue of assignments.
  datatype Pool = Pool(pending: seq<Test>, tokens: seq<string>, queue: seq<string>, workers: seq<Worker>)

  datatype Step = Fetch | Assign | Recreate | Finish | GiveBack

  function TokenOf(w: Worker): multiset<string> {
    match w
    case Running(test, taken, _) => if test.lock then multiset{taken} else multiset{}
    case Returning(taken) => multiset{taken}
    case _ => multiset{}
  }

  function Held(workers: seq<Worker>): multiset<string> {
    if workers == [] then multiset{} else TokenOf(workers[0]) + Held(workers[1..])
  }

  // Assignments still to be read by this worker.
  function Unassigned(w: Worker): nat {
    if w.Waiting? && !w.test.lock then 1 else 0
  }

  function UnassignedAll(workers: seq<Worker>): nat {
    if workers == [] then 0 else Unassigned(workers[0]) + UnassignedAll(workers[1..])
  }

  // A worker's next step is possible. Only the wait for a token can block: the
  // queue is closed, the results are buffered, and GiveBack needs room.
  predicate CanStep(projects: seq<string>, s: Pool, i: nat, step: Step)
    requires i < |s.workers|
  {
    var w := s.workers[i];
    match step
    case Fetch => w.Idle? && s.pending != []
    case Assign => w.Waiting? && (w.test.lock ==> s.tokens != [])
    case Recreate => w.Running? && w.test.retries > 0
    case Finish => w.Running?
    case GiveBack => w.Returning? && |s.tokens| < |projects|
  }

  // The project of a recreated workflow is that of the old one; reading from
  // the closed empty queue yields the empty name.
  function StepTo(projects: seq<string>, s: Pool, i: nat, step: Step): Pool
    requires i < |s.workers| && CanStep(projects, s, i, step)
  {
    var w := s.workers[i];
    match step
    case Fetch => s.(pending := s.pending[1..], workers := s.workers[i := Waiting(s.pending[0])])
    case Assign =>
      if w.test.lock then
        s.(tokens := s.tokens[1..], workers := s.workers[i := Running(w.test, s.tokens[0], s.tokens[0])])
      else if s.queue == [] then s.(workers := s.workers[i := Running(w.test, "", "")])
      else s.(queue := s.queue[1..], workers := s.workers[i := Running(w.test, s.queue[0], s.queue[0])])
    case Recreate =>
      s.(workers := s.workers[i := Running(w.test.(retries := w.test.retries - 1), w.taken, w.current)])
    case Finish =>
      s.(workers := s.workers[i := if w.test.lock then Returning(w.taken) else Idle])
    case GiveBack =>
      s.(tokens := s.tokens + [w.taken], workers := s.workers[i := Idle])
  }

  function Shared(tests: seq<Test>): nat {
    if tests == [] then 0 else (if tests[0].lock then 0 else 1) + Shared(tests[1..])
  }

  ghost predicate PoolInv(projects: seq<string>, s: Pool) {
    && multiset(s.tokens) + Held(s.workers) == multiset(projects)
    && |s.queue| >= Shared(s.pending) + UnassignedAll(s.workers)
    && (forall p :: p in s.queue ==> p in projects)
    && forall i :: 0 <= i < |s.workers| && s.workers[i].Running? ==>
         s.workers[i].current == s.workers[i].taken && s.workers[i].taken in projects
  }

  function StartPool(tests: seq<Test>, tokens: seq<string>, queue: seq<string>, n: nat): Pool {
    Pool(tests, tokens, queue, seq(n, _ => Idle))
  }

  lemma {:induction false} HeldUpdate(workers: seq<Worker>, i: nat, w: Worker)
    requires i < |workers|
    ensures UnassignedAll(workers[i := w]) + Unassigned(workers[i]) == UnassignedAll(workers) + Unassigned(w)
    ensures Effort(workers[i := w]) + Weight(workers[i]) == Effort(workers) + Weight(w)
  {
    hide TokenOf, Unassigned, Weight;
    if i > 0 {
      assert workers[i := w][1..] == workers[1..][i - 1 := w];
      HeldUpdate(workers[1..], i - 1, w);
    } else {
      assert workers[i := w][1..] == workers[1..];
    }
  }

  lemma {:induction false} HeldUpdateAt(workers: seq<Worker>, i: nat, w: Worker, p: string)
    requires i < |workers|
    ensures Held(workers[i := w])[p] + TokenOf(workers[i])[p] == Held(workers)[p] + TokenOf(w)[p]
  {
    hide TokenOf;
    if i > 0 {
      assert workers[i := w][1..] == workers[1..][i - 1 := w];
      HeldUpdateAt(workers[1..], i - 1, w, p);
    } else {
      assert workers[i := w][1..] == workers[1..];
    }
  }

  lemma {:induction false} IdlePool(n: nat)
    ensures var ws := seq(n, _ => Idle);
      Held(ws) == multiset{} && UnassignedAll(ws) == 0 && Effort(ws) == 0
  {
    var ws := seq(n, _ => Idle);
    if n > 0 {
      IdlePool(n - 1);
      assert ws[1..] == seq(n - 1, _ => Idle);
    }
  }

  lemma {:induction false} SharedWithin(tests: seq<Test>)
    ensures Shared(tests) <= |tests|
  {
    if tests != [] { SharedWithin(tests[1..]); }
  }

  lemma StartIsInv(projects: seq<string>, tests: seq<Test>, tokens: seq<string>, queue: seq<string>, n: nat)
    requires multiset(tokens) == multiset(projects) && |queue| == |tests| && forall p :: p in queue ==> p in projects
    ensures PoolInv(projects, StartPool(tests, tokens, queue, n))
  {
    IdlePool(n);
    SharedWithin(tests);
  }

  // What a worker takes the channel loses, and the other way round.
  lemma TokensMove(projects: seq<string>, s: Pool, i: nat, step: Step, p: string)
    requires i < |s.workers| && CanStep(projects, s, i, step)
    ensures var t := StepTo(projects, s, i, step);
      && |t.workers| == |s.workers| && t.workers == s.workers[i := t.workers[i]]
      && multiset(t.tokens)[p] + TokenOf(t.workers[i])[p] == multiset(s.tokens)[p] + TokenOf(s.workers[i])[p]
  {
    if step.Assign? && s.workers[i].test.lock {
      assert s.tokens == [s.tokens[0]] + s.tokens[1..];
    }
  }

  lemma StepKeepsTokens(projects: seq<string>, s: Pool, i: nat, step: Step)
    requires multiset(s.tokens) + Held(s.workers) == multiset(projects) && i < |s.workers|
    requires CanStep(projects, s, i, step)
    ensures var t := StepTo(projects, s, i, step); multiset(t.tokens) + Held(t.workers) == multiset(projects)
  {
    hide Held, TokenOf, StepTo, CanStep;
    var t := StepTo(projects, s, i, step);
    forall p ensures (multiset(t.tokens) + Held(t.workers))[p] == multiset(projects)[p] {
      TokensMove(projects, s, i, step, p);
      HeldUpdateAt(s.workers, i, t.workers[i], p);
      assert (multiset(s.tokens) + Held(s.workers))[p] == multiset(projects)[p];
    }
  }

  lemma StepKeepsQueue(projects: seq<string>, s: Pool, i: nat, step: Step)
    requires PoolInv(projects, s) && i < |s.workers| && CanStep(projects, s, i, step)
    ensures var t := StepTo(projects, s, i, step); |t.queue| >= Shared(t.pending) + UnassignedAll(t.workers)
  {
    hide Held, UnassignedAll;
    var t := StepTo(projects, s, i, step);
    HeldUpdate(s.workers, i, t.workers[i]);
    WaitingCounts(s.workers, i);
  }

  lemma StepKeepsRunning(projects: seq<string>, s: Pool, i: nat, step: Step)
    requires PoolInv(projects, s) && i < |s.workers| && CanStep(projects, s, i, step)
    ensures var t := StepTo(projects, s, i, step);
      && (forall p :: p in t.queue ==> p in projects)
      && forall k :: 0 <= k < |t.workers| && t.workers[k].Running? ==>
           t.workers[k].current == t.workers[k].taken && t.workers[k].taken in projects
  {
    TokensAreProjects(projects, s);
    WaitingCounts(s.workers, i);
    hide Held, UnassignedAll, Shared;
  }

  // Every step of every worker keeps the tokens whole and the queue long
  // enough, and a worker returns the token it took.
  lemma StepKeepsInv(projects: seq<string>, s: Pool, i: nat, step: Step)
    requires PoolInv(projects, s) && i < |s.workers| && CanStep(projects, s, i, step)
    ensures PoolInv(projects, StepTo(projects, s, i, step))
  {
    hide Held, UnassignedAll, Shared, StepTo, CanStep;
    StepKeepsTokens(projects, s, i, step);
    StepKeepsQueue(projects, s, i, step);
    StepKeepsRunning(projects, s, i, step);
  }

  lemma TokensAreProjects(projects: seq<string>, s: Pool)
    requires PoolInv(projects, s)
    ensures forall p :: p in s.tokens ==> p in projects
  {
    forall p | p in s.tokens ensures p in projects {
      assert p in multiset(s.tokens) && p in multiset(projects);
    }
  }

  lemma {:induction false} WaitingCounts(workers: seq<Worker>, i: nat)
    requires i < |workers|
    ensures Unassigned(workers[i]) <= UnassignedAll(workers)
    ensures TokenOf(workers[i]) <= Held(workers)
    ensures Weight(workers[i]) <= Effort(workers)
  {
    hide TokenOf, Unassigned, Weight;
    if i > 0 { WaitingCounts(workers[1..], i - 1); }
  }

  lemma {:induction false} TwoHeld(workers: seq<Worker>, i: nat, j: nat)
    requires i < j < |workers|
    ensures TokenOf(workers[i]) + TokenOf(workers[j]) <= Held(workers)
  {
    hide TokenOf;
    if i > 0 { TwoHeld(workers[1..], i - 1, j - 1); } else { WaitingCounts(workers[1..], j - 1); }
  }

  lemma {:induction false} DistinctOnce(projects: seq<string>, p: string)
    requires Distinct(projects)
    ensures multiset(projects)[p] <= 1
  {
    if projects != [] {
      assert projects == [projects[0]] + projects[1..];
      DistinctOnce(projects[1..], p);
      if projects[0] == p {
        assert p !in projects[1..];
      }
    }
  }

  // No two workers hold the same project.
  ghost predicate Exclusive(workers: seq<Worker>) {
    forall i, j, p ::
      0 <= i < |workers| && 0 <= j < |workers| && TokenOf(workers[i])[p] > 0 && TokenOf(workers[j])[p] > 0 ==> i == j
  }

  // With distinct project names no two workers hold the same token.
  lemma TokensAreExclusive(projects: seq<string>, s: Pool, i: nat, j: nat, p: string)
    requires PoolInv(projects, s) && Distinct(projects)
    requires i < |s.workers| && j < |s.workers| && TokenOf(s.workers[i])[p] > 0 && TokenOf(s.workers[j])[p] > 0
    ensures i == j
  {
    DistinctOnce(projects, p);
    hide TokenOf;
    if i < j { TwoHeld(s.workers, i, j); }
    if j < i { TwoHeld(s.workers, j, i); }
  }

  // A token can always be given back, and nobody reads from an empty queue.
  lemma NothingElseBlocks(projects: seq<string>, s: Pool, i: nat)
    requires PoolInv(projects, s) && i < |s.workers|
    ensures s.workers[i].Returning? ==> CanStep(projects, s, i, GiveBack)
    ensures s.workers[i].Waiting? && !s.workers[i].test.lock ==> s.queue != []
  {
    WaitingCounts(s.workers, i);
    var all := multiset(s.tokens) + Held(s.workers);
    assert |all| == |s.tokens| + |Held(s.workers)| && |multiset(projects)| == |projects|;
    if s.workers[i].Returning? {
      assert s.workers[i].taken in Held(s.workers);
    }
  }

  // ---------------------------------------------------------------- progress

  function Weight(w: Worker): nat {
    match w
    case Idle => 0
    case Waiting(test) => test.retries + 3
    case Running(test, _, _) => test.retries + 2
    case Returning(_) => 1
  }

  function Effort(workers: seq<Worker>): nat {
    if workers == [] then 0 else Weight(workers[0]) + Effort(workers[1..])
  }

  function Backlog(tests: seq<Test>): nat {
    if tests == [] then 0 else tests[0].retries + 4 + Backlog(tests[1..])
  }

  // Every step leaves less to do, so the pool cannot run for ever.
  lemma StepsAreFinite(projects: seq<string>, s: Pool, i: nat, step: Step)
    requires i < |s.workers| && CanStep(projects, s, i, step)
    ensures var t := StepTo(projects, s, i, step);
      Backlog(t.pending) + Effort(t.workers) < Backlog(s.pending) + Effort(s.workers)
  {
    var t := StepTo(projects, s, i, step);
    HeldUpdate(s.workers, i, t.workers[i]);
    assert s.workers[i := t.workers[i]] == t.workers;
  }

  ghost predicate AllDone(s: Pool) {
    s.pending == [] && forall i :: 0 <= i < |s.workers| ==> s.workers[i].Idle?
  }

  lemma {:induction false} SomeoneHolds(workers: seq<Worker>)
    requires Held(workers) != multiset{}
    ensures exists i :: 0 <= i < |workers| && TokenOf(workers[i]) != multiset{}
  {
    hide TokenOf;
    if TokenOf(workers[0]) == multiset{} {
      SomeoneHolds(workers[1..]);
      var i :| 0 <= i < |workers[1..]| && TokenOf(workers[1..][i]) != multiset{};
      assert workers[i + 1] == workers[1..][i];
    }
  }

  // No wait for a token deadlocks: while there is work, some worker can move.
  lemma SomeoneCanStep(projects: seq<string>, s: Pool)
    requires PoolInv(projects, s) && projects != [] && s.workers != [] && !AllDone(s)
    ensures exists i, step :: 0 <= i < |s.workers| && CanStep(projects, s, i, step)
  {
    var i := if forall k :: 0 <= k < |s.workers| ==> s.workers[k].Idle? then 0
             else var k :| 0 <= k < |s.workers| && !s.workers[k].Idle?; k;
    match s.workers[i]
    case Idle => assert CanStep(projects, s, i, Fetch);
    case Running(_, _, _) => assert CanStep(projects, s, i, Finish);
    case Returning(_) => NothingElseBlocks(projects, s, i); assert CanStep(projects, s, i, GiveBack);
    case Waiting(test) =>
      if test.lock && s.tokens == [] {
        assert |multiset(projects)| == |projects|;
        SomeoneHolds(s.workers);
        var k :| 0 <= k < |s.workers| && TokenOf(s.workers[k]) != multiset{};
        NothingElseBlocks(projects, s, k);
        assert CanStep(projects, s, k, if s.workers[k].Running? then Finish else GiveBack);
      } else {
        assert CanStep(projects, s, i, Assign);
      }
  }

  ghost predicate Moves(projects: seq<string>, s: Pool, moves: seq<(nat, Step)>)
    decreases |moves|
  {
    moves == [] ||
    (moves[0].0 < |s.workers| && CanStep(projects, s, moves[0].0, moves[0].1)
     && Moves(projects, StepTo(projects, s, moves[0].0, moves[0].1), moves[1..]))
  }

  ghost function AfterMoves(projects: seq<string>, s: Pool, moves: seq<(nat, Step)>): Pool
    requires Moves(projects, s, moves)
    decreases |moves|
  {
    if moves == [] then s else AfterMoves(projects, StepTo(projects, s, moves[0].0, moves[0].1), moves[1..])
  }

  // In any interleaving of the workers, which is never longer than the work
  // there is, no two workers hold the same project.
  lemma {:induction false} EveryInterleaving(projects: seq<string>, s: Pool, moves: seq<(nat, Step)>)
    requires PoolInv(projects, s) && Distinct(projects) && Moves(projects, s, moves)
    ensures var t := AfterMoves(projects, s, moves);
      && PoolInv(projects, t)
      && |moves| + Backlog(t.pending) + Effort(t.workers) <= Backlog(s.pending) + Effort(s.workers)
      && Exclusive(t.workers)
    decreases |moves|
  {
    hide PoolInv, StepTo, CanStep, TokenOf, Backlog, Effort;
    if moves == [] {
      forall i, j, p |
        0 <= i < |s.workers| && 0 <= j < |s.workers| && TokenOf(s.workers[i])[p] > 0 && TokenOf(s.workers[j])[p] > 0
        ensures i == j
      {
        TokensAreExclusive(projects, s, i, j, p);
      }
    } else {
      var (i, step) := moves[0];
      StepKeepsInv(projects, s, i, step);
      StepsAreFinite(projects, s, i, step);
      EveryInterleaving(projects, StepTo(projects, s, i, step), moves[1..]);
    }
  }

  // So it is with the pool that is set up: the tokens in a random order, the
  // balanced queue of assignments, and any number of workers. While there is
  // work some worker can move, and none reads an empty queue.
  lemma PoolIsSafe(
      projects: seq<string>, tests: seq<Test>, tokens: seq<string>, queue: seq<string>, n: nat,
      moves: seq<(nat, Step)>)
    requires Distinct(projects) && projects != [] && n > 0
    requires multiset(tokens) == multiset(projects) && |queue| == |tests| && forall p :: p in queue ==> p in projects
    requires Moves(projects, StartPool(tests, tokens, queue, n), moves)
    ensures var t := AfterMoves(projects, StartPool(tests, tokens, queue, n), moves);
      && |moves| + Backlog(t.pending) + Effort(t.workers) <= Backlog(tests)
      && Exclusive(t.workers)
      && (forall i :: 0 <= i < |t.workers| && t.workers[i].Waiting? && !t.workers[i].test.lock ==> t.queue != [])
      && (AllDone(t) || exists i, step :: 0 <= i < |t.workers| && CanStep(projects, t, i, step))
  {
    hide PoolInv, StepTo, CanStep, TokenOf, Backlog, Effort, Moves, AfterMoves, AllDone, Exclusive;
    var s := StartPool(tests, tokens, queue, n);
    StartIsInv(projects, tests, tokens, queue, n);
    IdlePool(n);
    EveryInterleaving(projects, s, moves);
    SameWorkers(projects, s, moves);
    var t := AfterMoves(projects, s, moves);
    if !AllDone(t) { SomeoneCanStep(projects, t); }
    forall i | 0 <= i < |t.workers| && t.workers[i].Waiting? && !t.workers[i].test.lock ensures t.queue != [] {
      NothingElseBlocks(projects, t, i);
    }
  }

  lemma {:induction false} SameWorkers(projects: seq<string>, s: Pool, moves: seq<(nat, Step)>)
    requires Moves(projects, s, moves)
    ensures |AfterMoves(projects, s, moves).workers| == |s.workers|
    decreases |moves|
  {
    if moves != [] {
      SameWorkers(projects, StepTo(projects, s, moves[0].0, moves[0].1), moves[1..]);
    }
  }
}
