// Step graphs of workflows: what it takes for one to be acyclic, with a linear
// chain of steps behind each VM.
module Graphs {
  import opened Names

  datatype Graph = Graph(steps: set<string>, deps: map<string, seq<string>>)

  const WAIT_VM_QUOTA := "wait-for-vm-quota"
  const WAIT_DISKS_QUOTA := "wait-for-disk-quota"
  const CREATE_VMS := "create-vms"
  const CREATE_DISKS := "create-disks"
  const CREATE_NETWORKS := "create-networks"
  const CREATE_FIREWALLS := "create-firewalls"
  const CREATE_SUBNETWORKS := "create-sub-networks"

  // x depends on y.
  predicate Depends(g: Graph, x: string, y: string) {
    x in g.deps && y in g.deps[x]
  }

  ghost predicate NoDependents(g: Graph, y: string) {
    forall x :: !Depends(g, x, y)
  }

  function DepsOf(g: Graph, x: string): seq<string> {
    if x in g.deps then g.deps[x] else []
  }

  // A dependency is added once.
  function AddEdge(g: Graph, x: string, y: string): Graph {
    if Depends(g, x, y) then g else g.(deps := g.deps[x := DepsOf(g, x) + [y]])
  }

  function AddStep(g: Graph, name: string): Graph {
    g.(steps := g.steps + {name})
  }

  // Nothing is ever taken away.
  ghost predicate Grown(g: Graph, h: Graph) {
    g.steps <= h.steps && forall x, y :: Depends(g, x, y) ==> Depends(h, x, y)
  }

  // ------------------------------------------------------------------ acyclic

  // Each step of the path depends on the next.
  ghost predicate Path(g: Graph, p: seq<string>) {
    forall i :: 0 <= i < |p| - 1 ==> Depends(g, p[i], p[i + 1])
  }

  ghost predicate Acyclic(g: Graph) {
    forall p: seq<string> :: |p| >= 2 && Path(g, p) ==> p[0] != p[|p| - 1]
  }

  // Every edge joins two steps and leads down the ranking.
  ghost predicate Ranked(g: Graph, rank: map<string, nat>, top: nat) {
    && g.steps <= rank.Keys && g.deps.Keys <= g.steps
    && (forall x :: x in rank ==> rank[x] < top)
    && (forall x :: x in g.deps ==> Distinct(g.deps[x]))
    && forall x, y :: Depends(g, x, y) ==> x in g.steps && y in g.steps && rank[y] < rank[x]
  }

  lemma {:induction false} PathDescends(g: Graph, rank: map<string, nat>, top: nat, p: seq<string>)
    requires Ranked(g, rank, top) && Path(g, p) && |p| >= 2
    ensures p[0] in rank && p[|p| - 1] in rank && rank[p[|p| - 1]] < rank[p[0]]
  {
    if |p| > 2 {
      var q := p[1..];
      assert forall i :: 0 <= i < |q| ==> q[i] == p[i + 1];
      PathDescends(g, rank, top, q);
    }
    assert Depends(g, p[0], p[1]);
  }

  lemma RankedIsAcyclic(g: Graph, rank: map<string, nat>, top: nat)
    requires Ranked(g, rank, top)
    ensures Acyclic(g)
  {
    forall p: seq<string> | |p| >= 2 && Path(g, p) ensures p[0] != p[|p| - 1] {
      PathDescends(g, rank, top, p);
    }
  }

  // ------------------------------------------------------------ shared steps

  predicate QuotaName(name: string) {
    name == WAIT_VM_QUOTA || name == WAIT_DISKS_QUOTA
  }

  // The steps that create, or wait for, what several VMs share. A quota step's
  // name in own is the wait step of a VM instead, which took the name first.
  predicate Shared(own: set<string>, name: string) {
    || name in {CREATE_VMS, CREATE_DISKS, CREATE_NETWORKS, CREATE_FIREWALLS, CREATE_SUBNETWORKS}
    || (QuotaName(name) && name !in own)
  }

  function SharedRank(name: string): (r: nat)
    ensures r < 5
  {
    if name == CREATE_VMS then 4
    else if name == WAIT_VM_QUOTA then 3
    else if name in {CREATE_DISKS, CREATE_FIREWALLS, CREATE_SUBNETWORKS} then 2
    else if name == WAIT_DISKS_QUOTA then 1
    else 0
  }

  // The dependencies among shared steps before a workflow is finalized.
  predicate SharedEdge(x: string, y: string) {
    || (x == CREATE_VMS && y in {CREATE_DISKS, CREATE_NETWORKS, CREATE_FIREWALLS, CREATE_SUBNETWORKS})
    || (x in {CREATE_FIREWALLS, CREATE_SUBNETWORKS} && y == CREATE_NETWORKS)
  }

  ghost predicate SharedRanks(g: Graph, rank: map<string, nat>, own: set<string>) {
    forall x :: x in g.steps && x in rank ==> if Shared(own, x) then rank[x] == SharedRank(x) else rank[x] >= 5
  }

  // At most one step depends on a step that is not shared.
  ghost predicate Linear(g: Graph, own: set<string>) {
    forall x, x', y :: Depends(g, x, y) && Depends(g, x', y) && !Shared(own, y) ==> x == x'
  }

  ghost predicate SharedEdges(g: Graph, own: set<string>) {
    forall x, y :: Depends(g, x, y) && Shared(own, x) ==> SharedEdge(x, y)
  }

  // What every workflow under construction satisfies.
  ghost predicate Good(g: Graph, rank: map<string, nat>, top: nat, own: set<string>) {
    5 <= top && Ranked(g, rank, top) && SharedRanks(g, rank, own) && Linear(g, own) && SharedEdges(g, own)
  }

  lemma AddedEdge(g: Graph, x: string, y: string)
    ensures forall a, b :: Depends(AddEdge(g, x, y), a, b) <==> Depends(g, a, b) || (a == x && b == y)
    ensures (forall a :: a in g.deps ==> Distinct(g.deps[a])) ==>
      forall a :: a in AddEdge(g, x, y).deps ==> Distinct(AddEdge(g, x, y).deps[a])
  {
  }

  lemma NewStepKeepsGood(g: Graph, rank: map<string, nat>, top: nat, own: set<string>, name: string)
    requires Good(g, rank, top, own) && name !in g.steps
    ensures Good(AddStep(g, name), rank[name := if Shared(own, name) then SharedRank(name) else top], top + 1, own)
    ensures NoDependents(AddStep(g, name), name)
  {
    hide Shared, SharedEdge, SharedRank;
    var h := AddStep(g, name);
    var rank' := rank[name := if Shared(own, name) then SharedRank(name) else top];
    SharedBelow(name);
    assert forall x, y :: Depends(h, x, y) <==> Depends(g, x, y);
    assert Linear(h, own) && SharedEdges(h, own);
  }

  // A VM takes a quota step's name that is still free.
  lemma TakingKeepsGood(g: Graph, rank: map<string, nat>, top: nat, own: set<string>, name: string)
    requires Good(g, rank, top, own) && name !in g.steps
    ensures Good(g, rank, top, own + {name})
  {
    hide SharedEdge, SharedRank;
  }

  lemma SharedBelow(name: string)
    ensures SharedRank(name) < 5
  {
  }

  // A step nothing depends on may come to depend on any other step that is
  // shared or that nothing else depends on: it moves to the top of the ranking.
  lemma TailEdgeKeepsGood(g: Graph, rank: map<string, nat>, top: nat, own: set<string>, x: string, y: string)
    requires Good(g, rank, top, own) && x in g.steps && y in g.steps && x != y
    requires !Shared(own, x) && NoDependents(g, x) && (Shared(own, y) || NoDependents(g, y))
    ensures Good(AddEdge(g, x, y), rank[x := top], top + 1, own)
  {
    hide Shared, SharedEdge, SharedRank, AddEdge;
    AddedEdge(g, x, y);
    AddedKeys(g, x, y);
  }

  lemma SharedEdgeKeepsGood(g: Graph, rank: map<string, nat>, top: nat, own: set<string>, x: string, y: string)
    requires Good(g, rank, top, own) && x in g.steps && y in g.steps && SharedEdge(x, y)
    ensures Good(AddEdge(g, x, y), rank, top, own)
  {
    hide AddEdge;
    AddedEdge(g, x, y);
    AddedKeys(g, x, y);
  }

  lemma AddedKeys(g: Graph, x: string, y: string)
    requires x in g.steps && g.deps.Keys <= g.steps
    ensures AddEdge(g, x, y).steps == g.steps && AddEdge(g, x, y).deps.Keys <= g.steps
  {
  }

  // ------------------------------------------------------------ linear chains

  // The steps from p[0] on, each the only one to depend on the one before, up
  // to one that nothing depends on.
  ghost predicate Chain(g: Graph, p: seq<string>) {
    && |p| > 0
    && (forall i :: 0 <= i < |p| - 1 ==> Depends(g, p[i + 1], p[i]))
    && (forall i, x :: 0 <= i < |p| - 1 && Depends(g, x, p[i]) ==> x == p[i + 1])
    && NoDependents(g, p[|p| - 1])
  }

  // The chain behind a step, and so the last step of a VM, is unique.
  lemma {:induction false} ChainIsUnique(g: Graph, p: seq<string>, q: seq<string>)
    requires Chain(g, p) && Chain(g, q) && p[0] == q[0]
    ensures p == q
  {
    ChainNext(g, p);
    ChainNext(g, q);
    if |p| > 1 {
      ChainTail(g, p);
      ChainTail(g, q);
      ChainIsUnique(g, p[1..], q[1..]);
      assert p == [p[0]] + p[1..] && q == [q[0]] + q[1..];
    }
  }

  lemma ChainNext(g: Graph, p: seq<string>)
    requires Chain(g, p)
    ensures |p| == 1 <==> NoDependents(g, p[0])
    ensures |p| > 1 ==> Depends(g, p[1], p[0]) && forall x :: Depends(g, x, p[0]) ==> x == p[1]
  {
    if |p| > 1 {
      assert Depends(g, p[0 + 1], p[0]);
    }
  }

  lemma ChainTail(g: Graph, p: seq<string>)
    requires Chain(g, p) && |p| > 1
    ensures Chain(g, p[1..])
  {
    var q := p[1..];
    forall i | 0 <= i < |q| - 1
      ensures Depends(g, q[i + 1], q[i]) && forall x :: Depends(g, x, q[i]) ==> x == q[i + 1]
    {
      assert q[i] == p[i + 1] && q[i + 1] == p[i + 2];
    }
  }

  // A fresh step behind the last one makes the chain one longer.
  lemma ChainGrows(g: Graph, p: seq<string>, x: string)
    requires Chain(g, p) && x !in g.steps && g.deps.Keys <= g.steps && NoDependents(g, x)
    requires forall i :: 0 <= i < |p| ==> p[i] in g.steps
    ensures Chain(AddEdge(AddStep(g, x), x, p[|p| - 1]), p + [x])
  {
    hide AddEdge;
    var h := AddEdge(AddStep(g, x), x, p[|p| - 1]);
    AddedEdge(AddStep(g, x), x, p[|p| - 1]);
    var q := p + [x];
    assert forall a, b :: Depends(AddStep(g, x), a, b) <==> Depends(g, a, b);
    ChainDistinct(g, p);
    assert forall i :: 0 <= i < |p| ==> q[i] == p[i];
  }

  // Steps of a chain differ from its last, on which nothing depends.
  lemma ChainDistinct(g: Graph, p: seq<string>)
    requires Chain(g, p)
    ensures forall i :: 0 <= i < |p| - 1 ==> p[i] != p[|p| - 1]
  {
    forall i | 0 <= i < |p| - 1 ensures p[i] != p[|p| - 1] {
      assert Depends(g, p[i + 1], p[i]);
    }
  }

  // A new dependency leaves the chains alone that its target is not part of.
  lemma ChainKept(g: Graph, p: seq<string>, x: string, y: string)
    requires Chain(g, p) && y !in p
    ensures Chain(AddEdge(g, x, y), p)
  {
    hide AddEdge;
    AddedEdge(g, x, y);
    assert forall i :: 0 <= i < |p| ==> p[i] in p;
  }

  lemma ChainKeptByStep(g: Graph, p: seq<string>, x: string)
    requires Chain(g, p)
    ensures Chain(AddStep(g, x), p)
  {
    assert forall a, b :: Depends(AddStep(g, x), a, b) <==> Depends(g, a, b);
  }

  // Every step behind an own step of a workflow is there and not shared.
  lemma {:induction false} ChainIsOwn(g: Graph, rank: map<string, nat>, top: nat, own: set<string>, p: seq<string>)
    requires Good(g, rank, top, own) && Chain(g, p) && p[0] in g.steps && !Shared(own, p[0])
    ensures forall i :: 0 <= i < |p| ==> p[i] in g.steps && !Shared(own, p[i])
  {
    if |p| > 1 {
      ChainNext(g, p);
      ChainTail(g, p);
      DependentsAreOwn(g, rank, top, own, p[1], p[0]);
      ChainIsOwn(g, rank, top, own, p[1..]);
      assert forall i :: 1 <= i < |p| ==> p[i] == p[1..][i - 1];
    }
  }

  // Steps that depend on a step behind a VM are behind it too.
  lemma DependentsAreOwn(g: Graph, rank: map<string, nat>, top: nat, own: set<string>, x: string, y: string)
    requires Good(g, rank, top, own) && Depends(g, x, y) && !Shared(own, y)
    ensures !Shared(own, x)
  {
  }

  lemma EdgeGrows(g: Graph, x: string, y: string)
    ensures Grown(g, AddEdge(g, x, y)) && AddEdge(g, x, y).steps == g.steps
  {
    AddedEdge(g, x, y);
  }

  lemma StepGrows(g: Graph, x: string)
    ensures Grown(g, AddStep(g, x))
  {
  }

  lemma GrownTransitive(g: Graph, h: Graph, k: Graph)
    requires Grown(g, h) && Grown(h, k)
    ensures Grown(g, k)
  {
    hide Depends;
  }

  // ------------------------------------------------------------- finalizing

  lemma RankedStep(g: Graph, rank: map<string, nat>, top: nat, name: string)
    requires Ranked(g, rank, top) && name !in g.steps
    ensures Ranked(AddStep(g, name), rank[name := top], top + 1)
  {
    assert forall x, y :: Depends(AddStep(g, name), x, y) <==> Depends(g, x, y);
  }

  lemma RankedEdge(g: Graph, rank: map<string, nat>, top: nat, x: string, y: string)
    requires Ranked(g, rank, top) && x in g.steps && y in g.steps && rank[y] < rank[x]
    ensures Ranked(AddEdge(g, x, y), rank, top)
  {
    hide AddEdge;
    AddedEdge(g, x, y);
    AddedKeys(g, x, y);
  }

  // Under construction the VM creation step only waits for steps that rank
  // below its quota step, and disk creation waits for nothing.
  lemma CreationDeps(g: Graph, rank: map<string, nat>, top: nat, own: set<string>)
    requires Good(g, rank, top, own)
    ensures forall d :: Depends(g, CREATE_VMS, d) ==> d in rank && rank[d] < 3
    ensures forall d :: !Depends(g, CREATE_DISKS, d)
    ensures WAIT_VM_QUOTA in g.steps && WAIT_VM_QUOTA !in own ==> rank[WAIT_VM_QUOTA] == 3
    ensures WAIT_DISKS_QUOTA in g.steps && WAIT_DISKS_QUOTA !in own ==> rank[WAIT_DISKS_QUOTA] == 1
    ensures CREATE_VMS in g.steps ==> rank[CREATE_VMS] == 4
    ensures CREATE_DISKS in g.steps ==> rank[CREATE_DISKS] == 2
  {
    forall d | Depends(g, CREATE_VMS, d) ensures d in rank && rank[d] < 3 {
      assert SharedEdge(CREATE_VMS, d);
    }
    forall d ensures !Depends(g, CREATE_DISKS, d) {
      assert !SharedEdge(CREATE_DISKS, d);
    }
  }
}
