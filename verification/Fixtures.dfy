// The step graphs that fixtures make of a graph, by name and shape.
module Fixtures {
  import opened Names
  import opened Graphs
  import opened Decimal

  // ------------------------------------------------------------- step names

  function UpToDot(s: string): string {
    if s == "" || s[0] == '.' then "" else [s[0]] + UpToDot(s[1..])
  }

  function Dashed(s: string): string {
    if s == "" then "" else [if s[0] == '_' then '-' else s[0]] + Dashed(s[1..])
  }

  function VMName(name: string): string {
    Dashed(UpToDot(name))
  }

  // The name of a VM is the part of the disk's before the first dot, with
  // dashes for underscores.
  lemma {:induction false} VMNameAsStated(name: string)
    ensures var vm := VMName(name);
      && |vm| <= |name| && '.' !in name[..|vm|] && (|vm| < |name| ==> name[|vm|] == '.')
      && forall i :: 0 <= i < |vm| ==> vm[i] == if name[i] == '_' then '-' else name[i]
  {
    if name != "" && name[0] != '.' {
      VMNameAsStated(name[1..]);
      var vm := VMName(name[1..]);
      assert UpToDot(name)[1..] == UpToDot(name[1..]);
      assert VMName(name) == [if name[0] == '_' then '-' else name[0]] + vm;
      assert name[..|vm| + 1] == [name[0]] + name[1..][..|vm|];
    }
  }

  function WaitName(vm: string): string {
    "wait-" + vm
  }

  function Suffix(vm: string, counter: nat): string {
    vm + "-" + Itoa(counter)
  }

  // A VM by one of these names would share its wait step with a quota step.
  predicate Reserved(vm: string) {
    vm == "for-vm-quota" || vm == "for-disk-quota"
  }

  lemma WaitIsOwn(own: set<string>, vm: string)
    ensures Shared(own, WaitName(vm)) <==> Reserved(vm) && WaitName(vm) !in own
  {
    assert WaitName(vm)[5..] == vm;
    assert WAIT_VM_QUOTA[5..] == "for-vm-quota" && WAIT_DISKS_QUOTA[5..] == "for-disk-quota";
    assert WaitName("for-vm-quota") == WAIT_VM_QUOTA && WaitName("for-disk-quota") == WAIT_DISKS_QUOTA;
    assert WaitName(vm)[0] == 'w';
    assert CREATE_VMS[0] == 'c' && CREATE_DISKS[0] == 'c' && CREATE_NETWORKS[0] == 'c' && CREATE_FIREWALLS[0] == 'c';
    assert CREATE_SUBNETWORKS[0] == 'c';
  }

  lemma SuffixedIsOwn(own: set<string>, s: string)
    requires |s| > 0
    ensures !Shared(own, "stop-" + s) && !Shared(own, "start-" + s) && !Shared(own, "resume-" + s)
    ensures !Shared(own, "resize-disk-" + s) && !Shared(own, "detach-disk-" + s)
    ensures !Shared(own, "create-vms-" + s)
  {
    assert ("stop-" + s)[0] == 's' && ("start-" + s)[0] == 's' && ("resume-" + s)[0] == 'r';
    assert ("resize-disk-" + s)[0] == 'r' && ("detach-disk-" + s)[0] == 'd';
    assert |"create-vms-" + s| > 11 && ("create-vms-" + s)[7] == 'v' && |CREATE_VMS| == 10;
    assert CREATE_DISKS[7] == 'd' && CREATE_NETWORKS[7] == 'n' && CREATE_FIREWALLS[7] == 'f';
    assert CREATE_SUBNETWORKS[7] == 's';
    assert CREATE_VMS[0] == 'c' && CREATE_DISKS[0] == 'c' && CREATE_NETWORKS[0] == 'c' && CREATE_FIREWALLS[0] == 'c';
    assert CREATE_SUBNETWORKS[0] == 'c';
    assert WAIT_VM_QUOTA[0] == 'w' && WAIT_DISKS_QUOTA[0] == 'w';
  }

  lemma WaitNamesAreOwn(s: string)
    ensures !Reserved("stopped-" + s) && !Reserved("stopped-stopped-" + s) && !Reserved("started-" + s)
    ensures !Reserved("suspended-" + s) && !Reserved("derivative-" + s)
  {
    assert ("stopped-" + s)[0] == 's' && ("stopped-stopped-" + s)[0] == 's' && ("started-" + s)[0] == 's';
    assert ("suspended-" + s)[0] == 's' && ("derivative-" + s)[0] == 'd';
    assert "for-vm-quota"[0] == 'f' && "for-disk-quota"[0] == 'f';
  }

  // rdeps lists, once each, the dependents of every step along the edges that
  // leave done, and those from x to the steps listed in ys.
  ghost predicate Reversed(rdeps: map<string, seq<string>>, g: Graph, done: set<string>, x: string, ys: seq<string>) {
    && (forall y, d :: y in rdeps && d in rdeps[y] <==> (d in done && Depends(g, d, y)) || (d == x && y in ys))
    && forall y :: y in rdeps ==> rdeps[y] != [] && Distinct(rdeps[y])
  }

  method ReverseDeps(g: Graph) returns (rdeps: map<string, seq<string>>)
    requires forall x :: x in g.deps ==> Distinct(g.deps[x])
    ensures forall y :: y in rdeps <==> !NoDependents(g, y)
    ensures forall y :: y in rdeps ==>
      rdeps[y] != [] && Distinct(rdeps[y]) && forall d :: d in rdeps[y] <==> Depends(g, d, y)
  {
    hide Reversed;
    rdeps := map[];
    var todo := g.deps.Keys;
    NothingReversed(g);
    while todo != {}
      invariant todo <= g.deps.Keys
      invariant Reversed(rdeps, g, g.deps.Keys - todo, "", [])
      decreases |todo|
    {
      var x :| x in todo;
      var ys := g.deps[x];
      StartReversing(rdeps, g, g.deps.Keys - todo, x);
      for i := 0 to |ys|
        invariant Reversed(rdeps, g, g.deps.Keys - todo, x, ys[..i])
      {
        var y := ys[i];
        ReverseOne(rdeps, g, g.deps.Keys - todo, x, i);
        rdeps := rdeps[y := (if y in rdeps then rdeps[y] else []) + [x]];
      }
      assert ys[..|ys|] == ys;
      EndReversing(rdeps, g, g.deps.Keys - todo, x);
      assert g.deps.Keys - (todo - {x}) == g.deps.Keys - todo + {x};
      todo := todo - {x};
    }
    AllReversed(rdeps, g, g.deps.Keys - todo);
  }

  lemma NothingReversed(g: Graph)
    ensures Reversed(map[], g, g.deps.Keys - g.deps.Keys, "", [])
  {
  }

  lemma StartReversing(rdeps: map<string, seq<string>>, g: Graph, done: set<string>, x: string)
    requires Reversed(rdeps, g, done, "", [])
    ensures Reversed(rdeps, g, done, x, g.deps[x][..0])
    requires x in g.deps
  {
  }

  lemma ReverseOne(rdeps: map<string, seq<string>>, g: Graph, done: set<string>, x: string, i: nat)
    requires x in g.deps && x !in done && i < |g.deps[x]| && Distinct(g.deps[x])
    requires Reversed(rdeps, g, done, x, g.deps[x][..i])
    ensures var y := g.deps[x][i];
      Reversed(rdeps[y := (if y in rdeps then rdeps[y] else []) + [x]], g, done, x, g.deps[x][..i + 1])
  {
    hide Depends;
    var ys := g.deps[x];
    assert ys[..i + 1] == ys[..i] + [ys[i]];
    assert ys[i] !in ys[..i];
  }

  lemma EndReversing(rdeps: map<string, seq<string>>, g: Graph, done: set<string>, x: string)
    requires x in g.deps && Reversed(rdeps, g, done, x, g.deps[x])
    ensures Reversed(rdeps, g, done + {x}, "", [])
  {
  }

  lemma AllReversed(rdeps: map<string, seq<string>>, g: Graph, done: set<string>)
    requires Reversed(rdeps, g, done, "", []) && done == g.deps.Keys
    ensures forall y :: y in rdeps <==> !NoDependents(g, y)
    ensures forall y :: y in rdeps ==>
      rdeps[y] != [] && Distinct(rdeps[y]) && forall d :: d in rdeps[y] <==> Depends(g, d, y)
  {
    forall y ensures y in rdeps <==> !NoDependents(g, y) {
      if y in rdeps {
        assert rdeps[y][0] in rdeps[y];
        assert Depends(g, rdeps[y][0], y);
      }
      if !NoDependents(g, y) {
        var d :| Depends(g, d, y);
        assert d in done;
      }
    }
  }

  // Where a VM took the name of a quota step, rewiring would close a circle,
  // whatever else the graph holds.
  lemma TakenVMQuotaClosesCircle(g: Graph, h: Graph)
    requires WAIT_VM_QUOTA in g.steps && CREATE_VMS in g.steps && Depends(g, WAIT_VM_QUOTA, CREATE_VMS)
    requires Grown(g, h) && Rewired(g, h, WAIT_VM_QUOTA, CREATE_VMS)
    ensures !Acyclic(h)
  {
    var p := [CREATE_VMS, WAIT_VM_QUOTA, CREATE_VMS];
    assert Path(h, p) && p[0] == p[|p| - 1];
  }

  lemma TakenDisksQuotaClosesCircle(g: Graph, h: Graph)
    requires WAIT_DISKS_QUOTA in g.steps && CREATE_DISKS in g.steps
    requires Depends(g, WAIT_DISKS_QUOTA, CREATE_VMS) && Depends(g, CREATE_VMS, CREATE_DISKS)
    requires Grown(g, h) && Rewired(g, h, WAIT_DISKS_QUOTA, CREATE_DISKS)
    ensures !Acyclic(h)
  {
    var p := [CREATE_DISKS, WAIT_DISKS_QUOTA, CREATE_VMS, CREATE_DISKS];
    assert Path(h, p) && p[0] == p[|p| - 1];
  }

  // Adding a VM of such a name makes just these dependencies.
  lemma ReservedNamesAreTaken(g: Graph)
    ensures var vms := WithVM(g, "for-vm-quota");
      WAIT_VM_QUOTA in vms.steps && CREATE_VMS in vms.steps && Depends(vms, WAIT_VM_QUOTA, CREATE_VMS)
    ensures var disks := WithVM(AddStep(g, CREATE_DISKS), "for-disk-quota");
      && WAIT_DISKS_QUOTA in disks.steps && CREATE_DISKS in disks.steps
      && Depends(disks, WAIT_DISKS_QUOTA, CREATE_VMS) && Depends(disks, CREATE_VMS, CREATE_DISKS)
  {
    assert WaitName("for-vm-quota") == WAIT_VM_QUOTA && WaitName("for-disk-quota") == WAIT_DISKS_QUOTA;
    TakenBy(g, "for-vm-quota");
    TakenBy(AddStep(g, CREATE_DISKS), "for-disk-quota");
  }

  lemma TakenBy(g: Graph, vm: string)
    ensures var h := WithVM(g, vm);
      && g.steps + {CREATE_VMS, WaitName(vm)} <= h.steps
      && Depends(h, WaitName(vm), CREATE_VMS) && Depends(h, CREATE_VMS, CREATE_DISKS)
  {
    hide AddEdge, WaitName, WithNetworks;
    var h1 := WithVMs(g);
    var h2 := WithWait(h1, vm);
    AddedEdge(AddStep(g, CREATE_VMS), CREATE_VMS, CREATE_DISKS);
    EdgeGrows(AddStep(g, CREATE_VMS), CREATE_VMS, CREATE_DISKS);
    AddedEdge(AddStep(h1, WaitName(vm)), WaitName(vm), CREATE_VMS);
    EdgeGrows(AddStep(h1, WaitName(vm)), WaitName(vm), CREATE_VMS);
    assert Depends(h1, CREATE_VMS, CREATE_DISKS);
    assert Depends(AddStep(h1, WaitName(vm)), CREATE_VMS, CREATE_DISKS);
    NetworksGrow(h2);
  }

  // A wait step set aside for a VM is not shared.
  lemma TakenIsOwn(own: set<string>, name: string, vm: string)
    requires name == WaitName(vm) && name in own
    ensures !Shared(own, name)
  {
    WaitIsOwn(own, vm);
  }

  lemma RebootStepsDiffer(s: string)
    ensures "stop-" + s != "start-" + s && "wait-stopped-stopped-" + s != "wait-started-" + s
    ensures {"stop-" + s, "start-" + s} !! {"wait-stopped-stopped-" + s, "wait-started-" + s}
  {
    assert ("stop-" + s)[2] == 'o' && ("start-" + s)[2] == 'a';
    assert ("stop-" + s)[0] == 's' && ("start-" + s)[0] == 's';
    assert ("wait-stopped-stopped-" + s)[7] == 'o' && ("wait-started-" + s)[7] == 'a';
    assert ("wait-stopped-stopped-" + s)[0] == 'w' && ("wait-started-" + s)[0] == 'w';
  }

  lemma ResizeIsNoReboot(s: string, t: string)
    ensures "resize-disk-" + s !in RebootSteps(t)
  {
    assert ("resize-disk-" + s)[0] == 'r' && ("stop-" + t)[0] == 's' && ("start-" + t)[0] == 's';
    assert ("wait-stopped-stopped-" + t)[0] == 'w' && ("wait-started-" + t)[0] == 'w';
  }

  lemma DerivativeStepsDiffer(s: string, counter: nat, name: string)
    ensures "detach-disk-" + s !in {"stop-" + s, "wait-stopped-stopped-" + s}
    ensures "create-vms-" + Itoa(counter) !in {"stop-" + s, "wait-stopped-stopped-" + s, "detach-disk-" + s}
    ensures "wait-derivative-" + name !in {"stop-" + s, "wait-stopped-stopped-" + s, "detach-disk-" + s}
    ensures "wait-derivative-" + name != "create-vms-" + Itoa(counter)
  {
    assert ("detach-disk-" + s)[0] == 'd' && ("stop-" + s)[0] == 's' && ("create-vms-" + Itoa(counter))[0] == 'c';
    assert ("wait-stopped-stopped-" + s)[0] == 'w' && ("wait-stopped-stopped-" + s)[5] == 's';
    assert ("wait-derivative-" + name)[0] == 'w' && ("wait-derivative-" + name)[5] == 'd';
  }

  lemma CopyIsNoWait()
    ensures !IsWait(COPY_OBJECTS)
  {
    assert COPY_OBJECTS[0] == 'c';
  }

  lemma StepsRanked(g: Graph, rank: map<string, nat>, top: nat)
    requires Ranked(g, rank, top)
    ensures g.steps <= rank.Keys
  {
  }

  lemma RanksBelow(g: Graph, rank: map<string, nat>, top: nat)
    requires Ranked(g, rank, top)
    ensures forall x :: x in rank ==> rank[x] < top
  {
  }

  lemma StartsRanked(g: Graph, rank: map<string, nat>, top: nat, own: set<string>)
    requires Good(g, rank, top, own)
    ensures Ranked(g, rank, top)
  {
  }

  lemma EdgesOf(g: Graph, rank: map<string, nat>, top: nat, x: string)
    requires Ranked(g, rank, top)
    ensures forall d :: d in DepsOf(g, x) <==> Depends(g, x, d)
    ensures forall d :: d in DepsOf(g, x) ==> d in g.steps
  {
  }

  lemma RewiredGrows(g: Graph, h: Graph, k: Graph, quota: string, create: string)
    requires Rewired(g, h, quota, create) && Grown(h, k)
    ensures Rewired(g, k, quota, create)
  {
    hide Depends;
  }

  lemma RewiredTwice(g: Graph, h: Graph, k: Graph, quota: string, create: string, quota': string, create': string)
    requires Rewired(g, h, quota, create) && Rewired(h, k, quota', create') && Grown(g, h) && Grown(h, k)
    requires g.steps == h.steps
    requires forall d :: Depends(g, create', d) ==> Depends(h, create', d)
    ensures Rewired(g, k, quota, create) && Rewired(g, k, quota', create') && Grown(g, k)
  {
    hide Depends;
    GrownTransitive(g, h, k);
  }

  function Stopped(g: Graph, s: string, last: string): Graph {
    Behind(Behind(g, "stop-" + s, last), "wait-stopped-stopped-" + s, "stop-" + s)
  }

  function Rebooted(g: Graph, s: string, last: string): Graph {
    Behind(Behind(Stopped(g, s, last), "start-" + s, "wait-stopped-stopped-" + s), "wait-started-" + s, "start-" + s)
  }

  function Suspended(g: Graph, s: string): Graph {
    AddEdge(AddStep(g, "wait-suspended-" + s), "wait-suspended-" + s, CREATE_VMS)
  }

  function Resuming(g: Graph, s: string): Graph {
    AddEdge(AddStep(Suspended(g, s), "resume-" + s), "resume-" + s, "wait-suspended-" + s)
  }

  function Resumed(g: Graph, s: string, last: string): Graph {
    AddEdge(Resuming(g, s), last, "resume-" + s)
  }

  // The last step waits for the resuming, that for the suspension, and that
  // for the creation of the VMs.
  ghost predicate ResumedBetween(h: Graph, s: string, last: string) {
    && Depends(h, last, "resume-" + s) && Depends(h, "resume-" + s, "wait-suspended-" + s)
    && Depends(h, "wait-suspended-" + s, "create-vms")
  }

  lemma SameEdges(g: Graph, name: string)
    ensures forall x, y :: Depends(AddStep(g, name), x, y) <==> Depends(g, x, y)
  {
  }

  lemma ResumedInBetween(g: Graph, s: string, last: string)
    ensures ResumedBetween(Resumed(g, s, last), s, last)
  {
    hide AddEdge;
    AddedEdge(AddStep(g, "wait-suspended-" + s), "wait-suspended-" + s, CREATE_VMS);
    AddedEdge(AddStep(Suspended(g, s), "resume-" + s), "resume-" + s, "wait-suspended-" + s);
    AddedEdge(Resuming(g, s), last, "resume-" + s);
    SameEdges(Suspended(g, s), "resume-" + s);
  }

  lemma NoDependentsKept(g: Graph, x: string, y: string, z: string)
    requires NoDependents(g, z) && z != y
    ensures NoDependents(AddEdge(g, x, y), z)
  {
    hide AddEdge;
    AddedEdge(g, x, y);
  }

  lemma SuspendedFacts(g: Graph, s: string, last: string)
    requires last in g.steps && "wait-suspended-" + s !in g.steps
    requires NoDependents(AddStep(g, "wait-suspended-" + s), "wait-suspended-" + s)
    requires NoDependents(g, last) && last != CREATE_VMS && "wait-suspended-" + s != CREATE_VMS
    ensures Grown(g, AddStep(g, "wait-suspended-" + s)) && Grown(g, Suspended(g, s))
    ensures Grown(g, AddStep(Suspended(g, s), "resume-" + s))
    ensures Suspended(g, s).steps == g.steps + {"wait-suspended-" + s}
    ensures NoDependents(AddStep(Suspended(g, s), "resume-" + s), "wait-suspended-" + s)
    ensures NoDependents(AddStep(Suspended(g, s), "resume-" + s), last)
  {
    hide AddEdge, Grown, NoDependents;
    var ws := "wait-suspended-" + s;
    var g1 := AddStep(g, ws);
    var g2 := AddEdge(g1, ws, CREATE_VMS);
    StepGrows(g, ws);
    EdgeGrows(g1, ws, CREATE_VMS);
    GrownTransitive(g, g1, g2);
    StepGrows(g2, "resume-" + s);
    GrownTransitive(g, g2, AddStep(g2, "resume-" + s));
    StillLast(g, ws, last);
    NoDependentsKept(g1, ws, CREATE_VMS, ws);
    NoDependentsKept(g1, ws, CREATE_VMS, last);
    StillLast(g2, "resume-" + s, ws);
    StillLast(g2, "resume-" + s, last);
  }

  lemma ResumingFacts(own: set<string>, g: Graph, s: string, chain: seq<string>)
    requires Chain(g, chain) && (forall i :: 0 <= i < |chain| ==> chain[i] in g.steps && !Shared(own, chain[i]))
    requires "wait-suspended-" + s !in g.steps && "resume-" + s !in Suspended(g, s).steps
    requires Suspended(g, s).steps == g.steps + {"wait-suspended-" + s}
    requires Grown(g, AddStep(Suspended(g, s), "resume-" + s))
    requires NoDependents(AddStep(Suspended(g, s), "resume-" + s), "resume-" + s)
    requires NoDependents(AddStep(Suspended(g, s), "resume-" + s), chain[|chain| - 1])
    ensures Grown(g, Resumed(g, s, chain[|chain| - 1]))
    ensures Resuming(g, s).steps == g.steps + {"wait-suspended-" + s, "resume-" + s}
    ensures NoDependents(Resuming(g, s), "resume-" + s) && NoDependents(Resuming(g, s), chain[|chain| - 1])
    ensures Chain(Resumed(g, s, chain[|chain| - 1]), chain)
  {
    FixedEdges(own);
    hide AddEdge, Grown, NoDependents, Shared;
    var ws, re, last := "wait-suspended-" + s, "resume-" + s, chain[|chain| - 1];
    var g1 := AddStep(g, ws);
    var g2 := Suspended(g, s);
    var g3 := AddStep(g2, re);
    var g4 := Resuming(g, s);
    EdgeGrows(g3, re, ws);
    EdgeGrows(g4, last, re);
    GrownTransitive(g, g3, g4);
    GrownTransitive(g, g4, AddEdge(g4, last, re));
    NoDependentsKept(g3, re, ws, re);
    NoDependentsKept(g3, re, ws, last);
    ChainKeptByStep(g, chain, ws);
    ChainKept(g1, chain, ws, CREATE_VMS);
    ChainKeptByStep(g2, chain, re);
    ChainKept(g3, chain, re, ws);
    ChainKept(g4, chain, last, re);
  }

  // The last three of a derivative VM's steps, behind the one that stopped its source.
  function Derived(g: Graph, steps: seq<string>): Graph
    requires |steps| == 5
  {
    Behind(Behind(Behind(g, steps[2], steps[1]), steps[3], steps[2]), steps[4], steps[3])
  }

  function DerivativeSteps(s: string, counter: nat, name: string): (steps: seq<string>)
    ensures |steps| == 5
  {
    ["stop-" + s, "wait-stopped-stopped-" + s, "detach-disk-" + s,
     "create-vms-" + Itoa(counter), "wait-derivative-" + name]
  }

  lemma LastDerivativeSteps(s: string, counter: nat, name: string)
    ensures DerivativeSteps(s, counter, name)[2..]
      == ["detach-disk-" + s, "create-vms-" + Itoa(counter), "wait-derivative-" + name]
    ensures forall step :: step in DerivativeSteps(s, counter, name) <==>
      step in {"stop-" + s, "wait-stopped-stopped-" + s} || step in DerivativeSteps(s, counter, name)[2..]
  {
    var made := DerivativeSteps(s, counter, name);
    assert made == made[..2] + made[2..];
  }

  lemma DerivativeStepsAreOwn(own: set<string>, vm: string, s: string, counter: nat, name: string)
    requires s == Suffix(vm, counter)
    ensures forall step :: step in DerivativeSteps(s, counter, name) ==> !Shared(own, step)
  {
    hide Shared;
    SuffixedIsOwn(own, s);
    SuffixedIsOwn(own, Itoa(counter));
    WaitNamesAreOwn(s);
    WaitNamesAreOwn(name);
    WaitIsOwn(own, "stopped-stopped-" + s);
    WaitIsOwn(own, "derivative-" + name);
    assert "wait-stopped-stopped-" + s == WaitName("stopped-stopped-" + s);
    assert "wait-derivative-" + name == WaitName("derivative-" + name);
  }

  lemma ResumeStepsAreOwn(own: set<string>, vm: string, s: string, counter: nat)
    requires s == Suffix(vm, counter)
    ensures forall step :: step in ResumeSteps(s) ==> !Shared(own, step)
  {
    hide Shared;
    SuffixedIsOwn(own, s);
    WaitNamesAreOwn(s);
    WaitIsOwn(own, "suspended-" + s);
    assert "wait-suspended-" + s == WaitName("suspended-" + s);
  }

  function ResumeSteps(s: string): seq<string> {
    ["wait-suspended-" + s, "resume-" + s]
  }

  lemma ResumeStepsDiffer(own: set<string>, s: string)
    ensures "wait-suspended-" + s != "resume-" + s && Shared(own, CREATE_VMS) && "wait-suspended-" + s != CREATE_VMS
  {
    assert ("wait-suspended-" + s)[0] == 'w' && ("resume-" + s)[0] == 'r' && CREATE_VMS[0] == 'c';
  }

  lemma ChainStarts(g: Graph, d: seq<string>, chain: seq<string>, x: string)
    requires Chain(g, d) && Chain(g, chain + [x]) && |chain| > 0 && |d| > 0 && d[0] == chain[0]
    ensures d[0] == (chain + [x])[0]
  {
  }

  const COPY_OBJECTS := "copy-objects"

  predicate IsWait(step: string) {
    5 <= |step| && step[..5] == "wait-"
  }

  lemma WaitStepsAreWaits()
    ensures forall vm :: IsWait(WaitName(vm))
    ensures forall step :: IsWait(step) ==> exists vm :: step == WaitName(vm)
  {
    forall vm ensures IsWait(WaitName(vm)) {
      assert WaitName(vm)[..5] == "wait-";
    }
    forall step | IsWait(step) ensures exists vm :: step == WaitName(vm) {
      assert step == WaitName(step[5..]);
    }
  }

  lemma NoEdgesYet(g: Graph, rank: map<string, nat>, top: nat, name: string)
    requires Ranked(g, rank, top) && name !in g.steps
    ensures forall y :: !Depends(g, name, y)
  {
  }

  // The creation step waits for its quota step, which waits for all it waited for.
  ghost predicate Rewired(g: Graph, h: Graph, quota: string, create: string) {
    quota in g.steps && create in g.steps ==>
      Depends(h, create, quota) && forall d :: Depends(g, create, d) ==> Depends(h, quota, d)
  }

  // A fresh step behind another.
  function Behind(g: Graph, name: string, last: string): Graph {
    AddEdge(AddStep(g, name), name, last)
  }

  function RebootSteps(s: string): seq<string> {
    ["stop-" + s, "wait-stopped-stopped-" + s, "start-" + s, "wait-started-" + s]
  }

  lemma StepsAreOwn(own: set<string>, vm: string, s: string, counter: nat)
    requires s == Suffix(vm, counter)
    ensures forall name :: name in RebootSteps(s) ==> !Shared(own, name)
    ensures !Shared(own, "resize-disk-" + s)
  {
    hide Shared;
    SuffixedIsOwn(own, s);
    WaitNamesAreOwn(s);
    WaitIsOwn(own, "stopped-stopped-" + s);
    WaitIsOwn(own, "started-" + s);
    assert "wait-stopped-stopped-" + s == WaitName("stopped-stopped-" + s);
    assert "wait-started-" + s == WaitName("started-" + s);
  }

  // In a chain that ends in a reboot, the VM is stopped behind what came before
  // it, started once it has stopped, and then waited for.
  lemma RebootInOrder(g: Graph, chain: seq<string>, s: string)
    requires |chain| > 0 && Chain(g, chain + RebootSteps(s))
    ensures Depends(g, "stop-" + s, chain[|chain| - 1]) && Depends(g, "wait-stopped-stopped-" + s, "stop-" + s)
    ensures Depends(g, "start-" + s, "wait-stopped-stopped-" + s) && Depends(g, "wait-started-" + s, "start-" + s)
  {
    hide Depends;
    var p, n := chain + RebootSteps(s), |chain|;
    assert p[n - 1] == chain[n - 1] && p[n] == "stop-" + s && p[n + 1] == "wait-stopped-stopped-" + s;
    assert p[n + 2] == "start-" + s && p[n + 3] == "wait-started-" + s;
  }

  // In one that ends in a derivative VM, that VM is created once the disk is
  // detached, which waits for the other VM to have stopped.
  lemma DerivativeInOrder(g: Graph, chain: seq<string>, s: string, counter: nat, name: string)
    requires |chain| > 0 && Chain(g, chain + DerivativeSteps(s, counter, name))
    ensures Depends(g, "stop-" + s, chain[|chain| - 1]) && Depends(g, "wait-stopped-stopped-" + s, "stop-" + s)
    ensures Depends(g, "detach-disk-" + s, "wait-stopped-stopped-" + s)
    ensures Depends(g, "create-vms-" + Itoa(counter), "detach-disk-" + s)
    ensures Depends(g, "wait-derivative-" + name, "create-vms-" + Itoa(counter))
  {
    hide Depends;
    var p, n := chain + DerivativeSteps(s, counter, name), |chain|;
    assert p[n - 1] == chain[n - 1] && p[n] == "stop-" + s && p[n + 1] == "wait-stopped-stopped-" + s;
    assert p[n + 2] == "detach-disk-" + s && p[n + 3] == "create-vms-" + Itoa(counter);
    assert p[n + 4] == "wait-derivative-" + name;
  }

  lemma GrownReflexive(g: Graph)
    ensures Grown(g, g)
  {
  }

  lemma NotYetKeys(g: Graph, rank: map<string, nat>, top: nat, own: set<string>)
    requires Good(g, rank, top, own)
    ensures g.deps.Keys <= g.steps
    ensures forall x :: x !in g.steps ==> NoDependents(g, x)
  {
  }

  lemma StillLast(g: Graph, name: string, last: string)
    requires NoDependents(g, last)
    ensures NoDependents(AddStep(g, name), last)
  {
    assert forall x, y :: Depends(AddStep(g, name), x, y) <==> Depends(g, x, y);
  }

  lemma FixedEdges(own: set<string>)
    ensures SharedEdge(CREATE_VMS, CREATE_DISKS) && SharedEdge(CREATE_VMS, CREATE_NETWORKS)
    ensures SharedEdge(CREATE_VMS, CREATE_SUBNETWORKS) && SharedEdge(CREATE_VMS, CREATE_FIREWALLS)
    ensures SharedEdge(CREATE_SUBNETWORKS, CREATE_NETWORKS) && SharedEdge(CREATE_FIREWALLS, CREATE_NETWORKS)
    ensures Shared(own, CREATE_VMS) && Shared(own, CREATE_DISKS) && Shared(own, CREATE_NETWORKS)
    ensures Shared(own, CREATE_SUBNETWORKS)
    ensures Shared(own, CREATE_FIREWALLS)
  {
  }

  lemma NewVMGrows(g: Graph, vm: string)
    ensures Grown(g, WithVMs(g)) && Grown(g, WithVM(g, vm))
    ensures WithVMs(g).steps == g.steps + {CREATE_VMS}
    ensures WaitName(vm) !in {CREATE_VMS, CREATE_DISKS, CREATE_NETWORKS, CREATE_SUBNETWORKS}
    ensures NoDependents(AddStep(WithVMs(g), WaitName(vm)), WaitName(vm)) ==> Chain(WithVM(g, vm), [WaitName(vm)])
  {
    hide AddEdge, Grown, Shared, WaitName, WithNetworks, Chain, NoDependents;
    WaitIsNotCreate(vm);
    var h := WithVMs(g);
    var k := WithWait(h, vm);
    StepGrows(g, CREATE_VMS);
    EdgeGrows(AddStep(g, CREATE_VMS), CREATE_VMS, CREATE_DISKS);
    GrownTransitive(g, AddStep(g, CREATE_VMS), h);
    StepGrows(h, WaitName(vm));
    EdgeGrows(AddStep(h, WaitName(vm)), WaitName(vm), CREATE_VMS);
    GrownTransitive(h, AddStep(h, WaitName(vm)), k);
    GrownTransitive(g, h, k);
    NetworksGrow(k);
    GrownTransitive(g, k, WithVM(g, vm));
    if NoDependents(AddStep(h, WaitName(vm)), WaitName(vm)) {
      OneStepChain(AddStep(h, WaitName(vm)), WaitName(vm));
      ChainKept(AddStep(h, WaitName(vm)), [WaitName(vm)], WaitName(vm), CREATE_VMS);
      NetworksKeepChain(k, [WaitName(vm)]);
    }
  }

  lemma OneStepChain(g: Graph, x: string)
    requires NoDependents(g, x)
    ensures Chain(g, [x])
  {
  }

  lemma WaitIsNotCreate(vm: string)
    ensures WaitName(vm) !in {CREATE_VMS, CREATE_DISKS, CREATE_NETWORKS, CREATE_SUBNETWORKS}
  {
    assert WaitName(vm)[0] == 'w' && CREATE_VMS[0] == 'c' && CREATE_DISKS[0] == 'c' && CREATE_NETWORKS[0] == 'c';
    assert CREATE_SUBNETWORKS[0] == 'c';
  }

  lemma NetworksGrow(g: Graph)
    ensures Grown(g, WithNetworks(g)) && WithNetworks(g).steps == g.steps
  {
    hide AddEdge, Depends;
    EdgeGrows(g, CREATE_VMS, CREATE_SUBNETWORKS);
    var h := if CREATE_SUBNETWORKS in g.steps then AddEdge(g, CREATE_VMS, CREATE_SUBNETWORKS) else g;
    EdgeGrows(h, CREATE_VMS, CREATE_NETWORKS);
  }

  lemma NetworksKeepChain(g: Graph, p: seq<string>)
    requires Chain(g, p) && CREATE_SUBNETWORKS !in p && CREATE_NETWORKS !in p
    ensures Chain(WithNetworks(g), p)
  {
    hide AddEdge, Chain;
    ChainKept(g, p, CREATE_VMS, CREATE_SUBNETWORKS);
    var h := if CREATE_SUBNETWORKS in g.steps then AddEdge(g, CREATE_VMS, CREATE_SUBNETWORKS) else g;
    ChainKept(h, p, CREATE_VMS, CREATE_NETWORKS);
  }

  // The graph with one more VM in it.
  function WithVMs(g: Graph): Graph {
    AddEdge(AddStep(g, CREATE_VMS), CREATE_VMS, CREATE_DISKS)
  }

  function WithWait(g: Graph, vm: string): Graph {
    AddEdge(AddStep(g, WaitName(vm)), WaitName(vm), CREATE_VMS)
  }

  function WithNetworks(g: Graph): Graph {
    var h := if CREATE_SUBNETWORKS in g.steps then AddEdge(g, CREATE_VMS, CREATE_SUBNETWORKS) else g;
    if CREATE_NETWORKS in g.steps then AddEdge(h, CREATE_VMS, CREATE_NETWORKS) else h
  }

  function WithVM(g: Graph, vm: string): Graph {
    WithNetworks(WithWait(WithVMs(g), vm))
  }

  // What one more VM adds: its wait step behind the shared creation step, and
  // that step behind the disks and whatever networks there are.
  ghost predicate VMAdded(g: Graph, h: Graph, vm: string) {
    && h.steps == g.steps + {"create-disks", "create-vms", "wait-" + vm}
    && forall x, y :: Depends(h, x, y) <==>
         || Depends(g, x, y)
         || (x == "wait-" + vm && y == "create-vms")
         || (x == "create-vms" && y == "create-disks")
         || (x == "create-vms" && y in {"create-networks", "create-sub-networks"} && y in g.steps)
  }

  lemma VMIsAdded(g: Graph, vm: string)
    ensures VMAdded(g, WithVM(AddStep(g, CREATE_DISKS), vm), vm)
  {
    hide AddEdge, Depends, WithVM;
    var h := AddStep(g, CREATE_DISKS);
    VMEdges(h, vm);
    SameEdges(g, CREATE_DISKS);
    assert CREATE_NETWORKS[7] == 'n' && CREATE_SUBNETWORKS[7] == 's' && CREATE_DISKS[7] == 'd';
  }

  lemma VMEdges(g: Graph, vm: string)
    ensures var h := WithVM(g, vm);
      && h.steps == g.steps + {CREATE_VMS, WaitName(vm)}
      && forall x, y :: Depends(h, x, y) <==>
           || Depends(g, x, y)
           || (x == CREATE_VMS && y == CREATE_DISKS) || (x == WaitName(vm) && y == CREATE_VMS)
           || (x == CREATE_VMS && y in {CREATE_NETWORKS, CREATE_SUBNETWORKS} && y in g.steps)
  {
    hide AddEdge, Depends, WaitName;
    WaitIsNotCreate(vm);
    var h1 := WithVMs(g);
    SameEdges(g, CREATE_VMS);
    AddedEdge(AddStep(g, CREATE_VMS), CREATE_VMS, CREATE_DISKS);
    EdgeGrows(AddStep(g, CREATE_VMS), CREATE_VMS, CREATE_DISKS);
    var h2 := WithWait(h1, vm);
    SameEdges(h1, WaitName(vm));
    AddedEdge(AddStep(h1, WaitName(vm)), WaitName(vm), CREATE_VMS);
    EdgeGrows(AddStep(h1, WaitName(vm)), WaitName(vm), CREATE_VMS);
    AddedEdge(h2, CREATE_VMS, CREATE_SUBNETWORKS);
    var h3 := if CREATE_SUBNETWORKS in h2.steps then AddEdge(h2, CREATE_VMS, CREATE_SUBNETWORKS) else h2;
    AddedEdge(h3, CREATE_VMS, CREATE_NETWORKS);
    NetworksGrow(h2);
    assert CREATE_NETWORKS[7] == 'n' && CREATE_SUBNETWORKS[7] == 's' && CREATE_VMS[7] == 'v';
  }

  ghost predicate Linkable(own: set<string>, g: Graph, x: string, y: string) {
    SharedEdge(x, y) || (x != y && !Shared(own, x) && NoDependents(g, x) && (Shared(own, y) || NoDependents(g, y)))
  }

  lemma NotYetThere(g: Graph, rank: map<string, nat>, top: nat, own: set<string>, name: string)
    requires Good(g, rank, top, own) && name !in g.steps
    ensures name !in g.deps
  {
  }

  lemma ListsDistinct(g: Graph, rank: map<string, nat>, top: nat, own: set<string>)
    requires Good(g, rank, top, own)
    ensures forall x :: x in g.deps ==> Distinct(g.deps[x])
    ensures forall x :: x in g.steps ==> x in rank && rank[x] < top
  {
  }

  // A walk along the only dependents.
  ghost predicate Walked(g: Graph, p: seq<string>) {
    && |p| > 0
    && (forall i :: 0 <= i < |p| - 1 ==> Depends(g, p[i + 1], p[i]))
    && forall i, x :: 0 <= i < |p| - 1 && Depends(g, x, p[i]) ==> x == p[i + 1]
  }

  lemma OneDependent(g: Graph, rank: map<string, nat>, top: nat, own: set<string>, dependents: seq<string>, y: string)
    requires Good(g, rank, top, own) && !Shared(own, y) && dependents != [] && Distinct(dependents)
    requires forall d :: d in dependents <==> Depends(g, d, y)
    ensures |dependents| == 1 && Depends(g, dependents[0], y)
    ensures dependents[0] in g.steps && !Shared(own, dependents[0])
    ensures dependents[0] in rank && y in rank && rank[y] < rank[dependents[0]] < top
  {
    assert Depends(g, dependents[0], y);
    var last := |dependents| - 1;
    assert Depends(g, dependents[last], y);
    assert dependents[last] == dependents[0];
  }

  lemma WalkOn(g: Graph, rank: map<string, nat>, top: nat, own: set<string>, p: seq<string>, x: string)
    requires Good(g, rank, top, own) && Walked(g, p) && Depends(g, x, p[|p| - 1]) && !Shared(own, p[|p| - 1])
    ensures Walked(g, p + [x])
  {
    var q := p + [x];
    assert forall i :: 0 <= i < |p| ==> q[i] == p[i];
  }
}
