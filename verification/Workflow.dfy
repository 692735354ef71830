// Fixtures that grow the step graph of a workflow, one step and one dependency
// at a time.
module Workflows {
  import opened Names
  import opened Graphs
  import opened Decimal
  import opened Fixtures
  import opened Numbering

  datatype Disk = Disk(name: string, sizeGb: int)

  // What a test sees of the walk to a VM's last step.
  datatype LastStep = NoSuchStep | NonLinear | Last(step: string)

  class Workflow {
    var steps: set<string>
    var deps: map<string, seq<string>>
    var counter: nat
    // The wait steps of VMs, and a ranking of all steps.
    ghost var own: set<string>
    ghost var rank: map<string, nat>
    ghost var top: nat

    function Built(): Graph
      reads this
    {
      Graph(steps, deps)
    }

    ghost predicate Valid()
      reads this
    {
      Good(Built(), rank, top, own)
    }

    // No name of several words ends in a number beyond the counter, which
    // holds as long as no VM is given such a name.
    ghost predicate Counted()
      reads this
    {
      UpTo(steps, counter)
    }

    constructor ()
      ensures Valid() && Counted() && Built() == Graph({}, map[]) && counter == 0 && own == {}
    {
      steps, deps, counter, own, rank, top := {}, map[], 0, {}, map[], 5;
    }

    // Every workflow is acyclic, whatever fixtures built it.
    lemma AlwaysAcyclic()
      requires Valid()
      ensures Acyclic(Built())
    {
      RankedIsAcyclic(Built(), rank, top);
    }

    // ---------------------------------------------------------- primitives

    method NewStep(name: string) returns (ok: bool)
      requires Valid()
      modifies this`steps, this`rank, this`top
      ensures Valid() && ok == (name !in old(steps))
      ensures Built() == if ok then AddStep(old(Built()), name) else old(Built())
      ensures ok ==> NoDependents(Built(), name) && name !in deps
    {
      hide Good, Shared, SharedRank;
      if name in steps {
        return false;
      }
      NewStepKeepsGood(Built(), rank, top, own, name);
      NotYetThere(Built(), rank, top, own, name);
      steps := steps + {name};
      rank, top := rank[name := if Shared(own, name) then SharedRank(name) else top], top + 1;
      return true;
    }

    // The dependencies fixtures add.
    method AddDependency(x: string, y: string) returns (ok: bool)
      requires Valid() && (x in steps && y in steps ==> Linkable(own, Built(), x, y))
      modifies this`deps, this`rank, this`top
      ensures Valid() && ok == (x in steps && y in steps)
      ensures Built() == if ok then AddEdge(old(Built()), x, y) else old(Built())
    {
      hide Good, Shared, SharedEdge;
      if x !in steps || y !in steps {
        return false;
      }
      if SharedEdge(x, y) {
        SharedEdgeKeepsGood(Built(), rank, top, own, x, y);
      } else {
        TailEdgeKeepsGood(Built(), rank, top, own, x, y);
        rank, top := rank[x := top], top + 1;
      }
      var g := AddEdge(Built(), x, y);
      deps := g.deps;
      return true;
    }

    method EnsureStep(name: string)
      requires Valid()
      modifies this`steps, this`rank, this`top
      ensures Valid() && Built() == AddStep(old(Built()), name)
    {
      hide Good;
      if name !in steps {
        var ok := NewStep(name);
      } else {
        assert steps == steps + {name};
      }
    }

    // --------------------------------------------------- the last step of a VM

    // The walk ends, never finds two dependents, and stops at the one step at
    // the end of the chain behind the VM's wait step.
    method GetLastStep(vm: string) returns (r: LastStep, ghost chain: seq<string>)
      requires Valid() && !Shared(own, WaitName(vm))
      ensures r.NoSuchStep? <==> WaitName(vm) !in steps
      ensures !r.NonLinear?
      ensures r.Last? ==>
        && Chain(Built(), chain) && |chain| > 0 && chain[0] == WaitName(vm) && chain[|chain| - 1] == r.step
        && r.step in steps && !Shared(own, r.step) && NoDependents(Built(), r.step)
    {
      hide Shared, SharedRank, SharedEdge, Good;
      chain := [];
      var step := WaitName(vm);
      if step !in steps {
        return NoSuchStep, chain;
      }
      ListsDistinct(Built(), rank, top, own);
      var rdeps := ReverseDeps(Built());
      chain := [step];
      while step in rdeps
        invariant step in steps && !Shared(own, step) && step in rank && rank[step] <= top
        invariant Walked(Built(), chain) && chain[0] == WaitName(vm) && chain[|chain| - 1] == step
        decreases top - rank[step]
      {
        var dependents := rdeps[step];
        OneDependent(Built(), rank, top, own, dependents, step);
        if |dependents| > 1 {
          return NonLinear, chain;
        }
        WalkOn(Built(), rank, top, own, chain, dependents[0]);
        step := dependents[0];
        chain := chain + [step];
      }
      return Last(step), chain;
    }

    // -------------------------------------------------------------- fixtures

    // Everything after the disks: the VM joins the shared creation step, which
    // waits for the networks there are, and gets a wait step of its own.
    method AddVM(vm: string) returns (ok: bool)
      requires Valid() && CREATE_DISKS in steps
      modifies this`steps, this`deps, this`own, this`rank, this`top
      ensures Valid() && Grown(old(Built()), Built())
      ensures ok <==> WaitName(vm) !in old(steps)
      ensures own == old(own) + (if ok then {WaitName(vm)} else {})
      ensures ok ==> Built() == WithVM(old(Built()), vm) && Chain(Built(), [WaitName(vm)])
      ensures old(Counted()) && Unnumbered(WaitName(vm)) ==> Counted()
    {
      hide Good, Shared, SharedEdge, AddEdge, Grown, Chain, WaitName, Unnumbered, UpTo;
      ghost var g := Built();
      FixedEdges(own);
      NewVMGrows(g, vm);
      EnsureStep(CREATE_VMS);
      ok := AddDependency(CREATE_VMS, CREATE_DISKS);
      assert Built() == WithVMs(g);
      if UpTo(g.steps, counter) && Unnumbered(WaitName(vm)) {
        OthersKeepNumbering(own, g.steps, counter, steps, WaitName(vm));
        OthersKeepNumbering(own, g.steps, counter, steps + {WaitName(vm)}, WaitName(vm));
      }
      Take(WaitName(vm));
      FixedEdges(own);
      ok := NewStep(WaitName(vm));
      if !ok {
        return;
      }
      TakenIsOwn(own, WaitName(vm), vm);
      ok := AddDependency(WaitName(vm), CREATE_VMS);
      assert Built() == WithWait(WithVMs(g), vm);
      if CREATE_SUBNETWORKS in steps {
        ok := AddDependency(CREATE_VMS, CREATE_SUBNETWORKS);
      }
      if CREATE_NETWORKS in steps {
        ok := AddDependency(CREATE_VMS, CREATE_NETWORKS);
      }
    }

    // A name still free is set aside for the wait step of a VM.
    ghost method Take(name: string)
      requires Valid()
      modifies this`own
      ensures Valid() && own == old(own) + (if name in steps then {} else {name})
    {
      hide Good;
      if name !in steps {
        TakingKeepsGood(Built(), rank, top, own, name);
        own := own + {name};
      }
    }

    // A VM whose boot disk bears its name; beta instances may have dashes.
    method CreateTestVM(name: string, beta: bool) returns (ok: bool)
      requires Valid()
      modifies this`steps, this`deps, this`own, this`rank, this`top
      ensures Valid() && Grown(old(Built()), Built())
      ensures ok <==> VMName(name) != "" && (beta || '-' !in VMName(name)) && WaitName(VMName(name)) !in old(steps)
      ensures own == old(own) + (if ok then {WaitName(VMName(name))} else {})
      ensures ok ==>
        && Built() == WithVM(AddStep(old(Built()), CREATE_DISKS), VMName(name))
        && Chain(Built(), [WaitName(VMName(name))])
        && VMAdded(old(Built()), Built(), VMName(name))
      ensures ok && CREATE_NETWORKS in old(steps) ==> Depends(Built(), CREATE_VMS, CREATE_NETWORKS)
      ensures ok && CREATE_SUBNETWORKS in old(steps) ==> Depends(Built(), CREATE_VMS, CREATE_SUBNETWORKS)
      ensures old(Counted()) && Unnumbered(WaitName(VMName(name))) ==> Counted()
    {
      hide Good, Shared, Grown, WaitName, WithVM, Unnumbered, UpTo;
      var vm := VMName(name);
      ghost var g := Built();
      VMIsAdded(g, vm);
      StepGrows(g, CREATE_DISKS);
      GrownReflexive(g);
      WaitIsNotCreate(vm);
      if vm == "" {
        return false;
      }
      EnsureStep(CREATE_DISKS);
      DisksKeepNumbering(own, g.steps, counter);
      if !beta && '-' in vm {
        return false;
      }
      ok := AddVM(vm);
      GrownTransitive(g, AddStep(g, CREATE_DISKS), Built());
    }

    // A VM with a boot disk and mount disks; the dash test looks at the name of
    // the boot disk as given.
    method CreateTestVMMultipleDisks(disks: seq<Disk>, beta: bool) returns (ok: bool)
      requires Valid()
      modifies this`steps, this`deps, this`own, this`rank, this`top
      ensures Valid() && Grown(old(Built()), Built())
      ensures ok <==>
        && disks != [] && disks[0].name != ""
        && (forall i :: 1 <= i < |disks| ==> disks[i].name != "" && disks[i].sizeGb != 0)
        && (beta || '-' !in disks[0].name) && WaitName(VMName(disks[0].name)) !in old(steps)
      ensures own == old(own) + (if ok then {WaitName(VMName(disks[0].name))} else {})
      ensures ok ==>
        var vm := VMName(disks[0].name);
        && Built() == WithVM(AddStep(old(Built()), CREATE_DISKS), vm) && Chain(Built(), [WaitName(vm)])
        && VMAdded(old(Built()), Built(), vm)
      ensures ok && CREATE_NETWORKS in old(steps) ==> Depends(Built(), CREATE_VMS, CREATE_NETWORKS)
      ensures ok && CREATE_SUBNETWORKS in old(steps) ==> Depends(Built(), CREATE_VMS, CREATE_SUBNETWORKS)
      ensures old(Counted()) && (disks == [] || Unnumbered(WaitName(VMName(disks[0].name)))) ==> Counted()
    {
      hide Good, Shared, Grown, WaitName, WithVM, VMName, Unnumbered, UpTo;
      ghost var g := Built();
      GrownReflexive(g);
      StepGrows(g, CREATE_DISKS);
      if disks == [] || disks[0].name == "" {
        return false;
      }
      var vm := VMName(disks[0].name);
      WaitIsNotCreate(vm);
      DisksKeepNumbering(own, g.steps, counter);
      VMIsAdded(g, vm);
      for i := 0 to |disks|
        invariant Valid() && Built() == if i == 0 then g else AddStep(g, CREATE_DISKS)
        invariant own == old(own)
        invariant forall k :: 1 <= k < i ==> disks[k].name != "" && disks[k].sizeGb != 0
      {
        if disks[i].name == "" || (i > 0 && disks[i].sizeGb == 0) {
          return false;
        }
        EnsureStep(CREATE_DISKS);
        assert Built().steps == g.steps + {CREATE_DISKS};
      }
      if !beta && '-' in disks[0].name {
        return false;
      }
      ok := AddVM(vm);
      GrownTransitive(g, AddStep(g, CREATE_DISKS), Built());
    }

    // A fresh step behind the last one of a chain.
    method Append(name: string, last: string, ghost chain: seq<string>) returns (ok: bool)
      requires Valid() && !Shared(own, name) && Chain(Built(), chain) && |chain| > 0 && chain[|chain| - 1] == last
      requires chain[0] in steps && !Shared(own, chain[0])
      modifies this`steps, this`deps, this`rank, this`top
      ensures Valid() && Grown(old(Built()), Built()) && ok == (name !in old(steps))
      ensures ok ==> Built() == Behind(old(Built()), name, last) && Chain(Built(), chain + [name])
      ensures ok ==> steps == old(steps) + {name}
      ensures !ok ==> Built() == old(Built())
    {
      hide Good, Shared, SharedEdge, AddEdge, Grown;
      ghost var g := Built();
      GrownReflexive(g);
      ChainIsOwn(g, rank, top, own, chain);
      NotYetKeys(g, rank, top, own);
      ok := NewStep(name);
      if ok {
        StillLast(g, name, last);
        ChainGrows(g, chain, name);
        StepGrows(g, name);
        EdgeGrows(AddStep(g, name), name, last);
        GrownTransitive(g, AddStep(g, name), Behind(g, name, last));
        ok := AddDependency(name, last);
      }
    }

    // Stops the VM behind its last step and waits for it to stop.
    method StopAndWait(s: string, last: string, ghost chain: seq<string>) returns (ok: bool)
      requires Valid() && Chain(Built(), chain) && |chain| > 0 && chain[|chain| - 1] == last
      requires !Shared(own, "stop-" + s) && !Shared(own, "wait-stopped-stopped-" + s)
      requires chain[0] in steps && !Shared(own, chain[0])
      modifies this`steps, this`deps, this`rank, this`top
      ensures Valid() && Grown(old(Built()), Built())
      ensures ok <==> "stop-" + s !in old(steps) && "wait-stopped-stopped-" + s !in old(steps)
      ensures old(steps) <= steps <= old(steps) + {"stop-" + s, "wait-stopped-stopped-" + s}
      ensures ok ==>
        && Built() == Stopped(old(Built()), s, last)
        && steps == old(steps) + {"stop-" + s, "wait-stopped-stopped-" + s}
        && chain[0] in steps && Chain(Built(), chain + ["stop-" + s, "wait-stopped-stopped-" + s])
    {
      hide Good, Shared, Grown, Behind, Chain;
      assert ("stop-" + s)[0] == 's' && ("wait-stopped-stopped-" + s)[0] == 'w';
      ghost var g := Built();
      ok := Append("stop-" + s, last, chain);
      if !ok {
        return;
      }
      ghost var h := Built();
      ok := Append("wait-stopped-stopped-" + s, "stop-" + s, chain + ["stop-" + s]);
      GrownTransitive(g, h, Built());
      assert chain + ["stop-" + s] + ["wait-stopped-stopped-" + s]
          == chain + ["stop-" + s, "wait-stopped-stopped-" + s];
    }

    // Stops the VM, waits, starts it and waits again, behind its last step. It
    // succeeds exactly when the VM's wait step exists and the four names are
    // new, as they are while no VM has a numbered name.
    method Reboot(vm: string) returns (ok: bool, ghost chain: seq<string>)
      requires Valid() && !Shared(own, WaitName(vm))
      modifies this`steps, this`deps, this`counter, this`rank, this`top
      ensures Valid() && Grown(old(Built()), Built()) && counter == old(counter) + 1
      ensures ok <==>
        && WaitName(vm) in old(steps)
        && forall step :: step in RebootSteps(Suffix(vm, counter)) ==> step !in old(steps)
      ensures old(Counted()) ==> Counted() && (ok <==> WaitName(vm) in old(steps))
      ensures ok ==>
        var s := Suffix(vm, counter);
        && Chain(old(Built()), chain) && |chain| > 0 && chain[0] == WaitName(vm)
        && Built() == Rebooted(old(Built()), s, chain[|chain| - 1])
        && Chain(Built(), chain + RebootSteps(s))
    {
      hide Good, Shared, Grown, Suffix, Chain, WaitName, UpTo, RebootSteps, Rebooted;
      ghost var before := steps;
      counter := counter + 1;
      var s := Suffix(vm, counter);
      StepsAreOwn(own, vm, s, counter);
      ok, chain := RebootAs(vm, s);
      RebootNumbering(before, counter - 1, vm, steps);
    }

    method RebootAs(vm: string, s: string) returns (ok: bool, ghost chain: seq<string>)
      requires Valid() && !Shared(own, WaitName(vm))
      requires forall step :: step in RebootSteps(s) ==> !Shared(own, step)
      modifies this`steps, this`deps, this`rank, this`top
      ensures Valid() && Grown(old(Built()), Built())
      ensures ok <==> WaitName(vm) in old(steps) && forall step :: step in RebootSteps(s) ==> step !in old(steps)
      ensures forall step :: step in steps ==> step in old(steps) || step in RebootSteps(s)
      ensures ok ==>
        && Chain(old(Built()), chain) && |chain| > 0 && chain[0] == WaitName(vm)
        && Built() == Rebooted(old(Built()), s, chain[|chain| - 1])
        && Chain(Built(), chain + RebootSteps(s))
    {
      hide Good, Shared, Grown, Behind, Chain, WaitName;
      ghost var g := Built();
      GrownReflexive(g);
      RebootStepsDiffer(s);
      var r, c := GetLastStep(vm);
      chain := c;
      if !r.Last? {
        return false, chain;
      }
      ok := StopAndWait(s, r.step, c);
      if !ok {
        return;
      }
      c := c + ["stop-" + s, "wait-stopped-stopped-" + s];
      ghost var h := Built();
      ok := Append("start-" + s, "wait-stopped-stopped-" + s, c);
      GrownTransitive(g, h, Built());
      if !ok {
        return;
      }
      c := c + ["start-" + s];
      h := Built();
      ok := Append("wait-started-" + s, "start-" + s, c);
      GrownTransitive(g, h, Built());
      assert c + ["wait-started-" + s] == chain + RebootSteps(s);
    }

    // The VM waits to be suspended once it is created, is resumed, and only
    // then does its last step come: the chain behind it stays as it was.
    method Resume(vm: string) returns (ok: bool, ghost chain: seq<string>)
      requires Valid() && !Shared(own, WaitName(vm)) && CREATE_VMS in steps
      modifies this`steps, this`deps, this`counter, this`rank, this`top
      ensures Valid() && Grown(old(Built()), Built()) && counter == old(counter) + 1
      ensures ok <==>
        && WaitName(vm) in old(steps)
        && forall step :: step in ResumeSteps(Suffix(vm, counter)) ==> step !in old(steps)
      ensures old(Counted()) ==> Counted() && (ok <==> WaitName(vm) in old(steps))
      ensures ok ==>
        && Chain(old(Built()), chain) && |chain| > 0 && chain[0] == WaitName(vm)
        && Built() == Resumed(old(Built()), Suffix(vm, counter), chain[|chain| - 1])
        && Chain(Built(), chain)
        && ResumedBetween(Built(), Suffix(vm, counter), chain[|chain| - 1])
    {
      hide Good, Shared, Grown, Suffix, Chain, WaitName, UpTo, ResumeSteps, Resumed, ResumedBetween;
      ghost var before := steps;
      counter := counter + 1;
      var s := Suffix(vm, counter);
      ResumeStepsAreOwn(own, vm, s, counter);
      ok, chain := ResumeAs(vm, s);
      ResumeNumbering(before, counter - 1, vm, steps);
    }

    method ResumeAs(vm: string, s: string) returns (ok: bool, ghost chain: seq<string>)
      requires Valid() && !Shared(own, WaitName(vm)) && CREATE_VMS in steps
      requires forall step :: step in ResumeSteps(s) ==> !Shared(own, step)
      modifies this`steps, this`deps, this`rank, this`top
      ensures Valid() && Grown(old(Built()), Built())
      ensures ok <==> WaitName(vm) in old(steps) && forall step :: step in ResumeSteps(s) ==> step !in old(steps)
      ensures forall step :: step in steps ==> step in old(steps) || step in ResumeSteps(s)
      ensures ok ==>
        && Chain(old(Built()), chain) && |chain| > 0 && chain[0] == WaitName(vm)
        && Built() == Resumed(old(Built()), s, chain[|chain| - 1])
        && Chain(Built(), chain)
        && ResumedBetween(Built(), s, chain[|chain| - 1])
    {
      hide Good, Shared, Grown, Chain, WaitName, AddEdge, SharedEdge, ResumedBetween;
      ghost var g := Built();
      GrownReflexive(g);
      ResumeStepsDiffer(own, s);
      var r, c := GetLastStep(vm);
      chain := c;
      if !r.Last? {
        return false, chain;
      }
      ChainIsOwn(g, rank, top, own, chain);
      ok := NewStep("wait-suspended-" + s);
      if !ok {
        return;
      }
      SuspendedFacts(g, s, r.step);
      ok := AddDependency("wait-suspended-" + s, CREATE_VMS);
      ok := NewStep("resume-" + s);
      if !ok {
        return;
      }
      ResumingFacts(own, g, s, chain);
      ok := AddDependency("resume-" + s, "wait-suspended-" + s);
      ok := AddDependency(r.step, "resume-" + s);
      ResumedInBetween(g, s, r.step);
    }

    // Resizes behind the last step, then reboots.
    method ResizeDiskAndReboot(vm: string) returns (ok: bool, ghost chain: seq<string>)
      requires Valid() && !Shared(own, WaitName(vm))
      modifies this`steps, this`deps, this`counter, this`rank, this`top
      ensures Valid() && Grown(old(Built()), Built())
      ensures ok <==>
        && WaitName(vm) in old(steps) && "resize-disk-" + Suffix(vm, old(counter) + 1) !in old(steps)
        && forall step :: step in RebootSteps(Suffix(vm, old(counter) + 2)) ==> step !in old(steps)
      ensures ok ==> counter == old(counter) + 2
      ensures old(Counted()) ==> Counted() && (ok <==> WaitName(vm) in old(steps))
      ensures ok ==>
        var s, t := Suffix(vm, old(counter) + 1), Suffix(vm, old(counter) + 2);
        && Chain(old(Built()), chain) && |chain| > 0 && chain[0] == WaitName(vm)
        && Built() == Rebooted(Behind(old(Built()), "resize-disk-" + s, chain[|chain| - 1]), t, "resize-disk-" + s)
        && Chain(Built(), chain + ["resize-disk-" + s] + RebootSteps(t))
    {
      hide Good, Shared, Grown, Behind, Suffix, Chain, WaitName, RebootSteps, Rebooted, UpTo;
      counter := counter + 1;
      ghost var g := Built();
      GrownReflexive(g);
      var s := Suffix(vm, counter);
      ResizeNumbering(g.steps, counter - 1, vm);
      ResizeIsNoReboot(s, Suffix(vm, counter + 1));
      StepsAreOwn(own, vm, s, counter);
      var r, c := GetLastStep(vm);
      chain := c;
      if !r.Last? {
        return false, chain;
      }
      ok := Append("resize-disk-" + s, r.step, chain);
      if !ok {
        return;
      }
      ghost var h, d := Built(), [];
      ok, d := Reboot(vm);
      GrownTransitive(g, h, Built());
      if ok {
        ChainIsUnique(h, d, chain + ["resize-disk-" + s]) by { ChainStarts(h, d, chain, "resize-disk-" + s); }
      }
    }

    // A VM made from the boot disk of another, whose chain it continues. The
    // steps made before a dash in the source's name is noticed stay.
    method CreateDerivativeVM(vm: string, name: string) returns (ok: bool, ghost chain: seq<string>)
      requires Valid() && !Shared(own, WaitName(vm))
      modifies this`steps, this`deps, this`counter, this`rank, this`top
      ensures Valid() && Grown(old(Built()), Built()) && counter == old(counter) + 1
      ensures ok <==>
        && WaitName(vm) in old(steps) && vm != "" && '-' !in vm
        && forall step :: step in DerivativeSteps(Suffix(vm, counter), counter, name) ==> step !in old(steps)
      ensures old(Counted()) && Unnumbered("wait-derivative-" + name) ==>
        && Counted()
        && (ok <==> WaitName(vm) in old(steps) && vm != "" && '-' !in vm && "wait-derivative-" + name !in old(steps))
      ensures ok ==>
        var made := DerivativeSteps(Suffix(vm, counter), counter, name);
        && Chain(old(Built()), chain) && |chain| > 0 && chain[0] == WaitName(vm)
        && Chain(Built(), chain + made)
        && Built() == Derived(Stopped(old(Built()), Suffix(vm, counter), chain[|chain| - 1]), made)
    {
      hide Good, Shared, Grown, Suffix, Chain, WaitName, UpTo, Unnumbered, DerivativeSteps, Derived, Stopped;
      ghost var before := steps;
      counter := counter + 1;
      var s := Suffix(vm, counter);
      DerivativeStepsAreOwn(own, vm, s, counter, name);
      ok, chain := DeriveAs(vm, s, name);
      DerivativeNumbering(before, counter - 1, vm, name, steps);
    }

    method DeriveAs(vm: string, s: string, name: string) returns (ok: bool, ghost chain: seq<string>)
      requires Valid() && !Shared(own, WaitName(vm))
      requires forall step :: step in DerivativeSteps(s, counter, name) ==> !Shared(own, step)
      modifies this`steps, this`deps, this`rank, this`top
      ensures Valid() && Grown(old(Built()), Built())
      ensures ok <==>
        && WaitName(vm) in old(steps) && vm != "" && '-' !in vm
        && forall step :: step in DerivativeSteps(s, counter, name) ==> step !in old(steps)
      ensures forall step :: step in steps ==> step in old(steps) || step in DerivativeSteps(s, counter, name)
      ensures ok ==>
        var made := DerivativeSteps(s, counter, name);
        && Chain(old(Built()), chain) && |chain| > 0 && chain[0] == WaitName(vm)
        && Chain(Built(), chain + made)
        && Built() == Derived(Stopped(old(Built()), s, chain[|chain| - 1]), made)
    {
      hide Good, Shared, Grown, Behind, Chain, WaitName;
      ghost var g := Built();
      GrownReflexive(g);
      LastDerivativeSteps(s, counter, name);
      DerivativeStepsDiffer(s, counter, name);
      var r, c := GetLastStep(vm);
      chain := c;
      if !r.Last? {
        return false, chain;
      }
      ok := StopAndWait(s, r.step, c);
      if !ok {
        return;
      }
      ghost var h := Built();
      ok := MoveDisk(vm, s, name, c + ["stop-" + s, "wait-stopped-stopped-" + s]);
      GrownTransitive(g, h, Built());
      assert chain + ["stop-" + s, "wait-stopped-stopped-" + s] + DerivativeSteps(s, counter, name)[2..]
        == chain + DerivativeSteps(s, counter, name);
    }

    // Detaches the disk of a stopped VM, creates the new VM and waits for it.
    method MoveDisk(vm: string, s: string, name: string, ghost chain: seq<string>) returns (ok: bool)
      requires Valid() && Chain(Built(), chain) && |chain| > 0 && chain[|chain| - 1] == "wait-stopped-stopped-" + s
      requires chain[0] in steps && !Shared(own, chain[0])
      requires forall step :: step in DerivativeSteps(s, counter, name) ==> !Shared(own, step)
      modifies this`steps, this`deps, this`rank, this`top
      ensures Valid() && Grown(old(Built()), Built())
      ensures ok <==>
        && vm != "" && '-' !in vm
        && forall step :: step in DerivativeSteps(s, counter, name)[2..] ==> step !in old(steps)
      ensures forall step :: step in steps ==> step in old(steps) || step in DerivativeSteps(s, counter, name)[2..]
      ensures ok ==>
        && Chain(Built(), chain + DerivativeSteps(s, counter, name)[2..])
        && Built() == Derived(old(Built()), DerivativeSteps(s, counter, name))
    {
      hide Good, Shared, Grown, Behind, Chain;
      ghost var g := Built();
      LastDerivativeSteps(s, counter, name);
      DerivativeStepsDiffer(s, counter, name);
      ok := Append("detach-disk-" + s, "wait-stopped-stopped-" + s, chain);
      if !ok {
        return;
      }
      if vm == "" || '-' in vm {
        return false;
      }
      var create := "create-vms-" + Itoa(counter);
      ghost var c, h := chain + ["detach-disk-" + s], Built();
      ok := Append(create, "detach-disk-" + s, c);
      GrownTransitive(g, h, Built());
      if !ok {
        return;
      }
      c, h := c + [create], Built();
      ok := Append("wait-derivative-" + name, create, c);
      GrownTransitive(g, h, Built());
      assert c + ["wait-derivative-" + name] == chain + DerivativeSteps(s, counter, name)[2..];
    }

    // ---------------------------------------------------------- shared fixtures

    method CreateNetwork()
      requires Valid()
      modifies this`steps, this`deps, this`rank, this`top
      ensures Valid() && CREATE_NETWORKS in steps && (old(Counted()) ==> Counted())
      ensures Built() ==
        var g := AddStep(old(Built()), CREATE_NETWORKS);
        if CREATE_VMS in g.steps then AddEdge(g, CREATE_VMS, CREATE_NETWORKS) else g
    {
      hide Good, Shared, SharedEdge, AddEdge, UpTo;
      FixedEdges(own);
      SharedKeepsNumbering(own, steps, counter, CREATE_NETWORKS);
      EnsureStep(CREATE_NETWORKS);
      if CREATE_VMS in steps {
        var ok := AddDependency(CREATE_VMS, CREATE_NETWORKS);
      }
    }

    // The creation step of VMs made earlier does not come to wait for it.
    method CreateSubnetwork() returns (ok: bool)
      requires Valid()
      modifies this`steps, this`deps, this`rank, this`top
      ensures Valid() && ok == (CREATE_NETWORKS in old(steps)) && (old(Counted()) ==> Counted())
      ensures Built() ==
        var g := AddStep(old(Built()), CREATE_SUBNETWORKS);
        if ok then AddEdge(g, CREATE_SUBNETWORKS, CREATE_NETWORKS) else g
    {
      hide Good, Shared, SharedEdge, AddEdge, UpTo;
      FixedEdges(own);
      SharedKeepsNumbering(own, steps, counter, CREATE_SUBNETWORKS);
      EnsureStep(CREATE_SUBNETWORKS);
      if CREATE_NETWORKS !in steps {
        return false;
      }
      ok := AddDependency(CREATE_SUBNETWORKS, CREATE_NETWORKS);
    }

    method CreateFirewallRule()
      requires Valid()
      modifies this`steps, this`deps, this`rank, this`top
      ensures Valid() && (old(Counted()) ==> Counted())
      ensures Built() ==
        var g := AddStep(old(Built()), CREATE_FIREWALLS);
        var h := if CREATE_NETWORKS in g.steps then AddEdge(g, CREATE_FIREWALLS, CREATE_NETWORKS) else g;
        if CREATE_VMS in g.steps then AddEdge(h, CREATE_VMS, CREATE_FIREWALLS) else h
    {
      hide Good, Shared, SharedEdge, AddEdge, UpTo;
      FixedEdges(own);
      SharedKeepsNumbering(own, steps, counter, CREATE_FIREWALLS);
      ghost var g := AddStep(Built(), CREATE_FIREWALLS);
      EdgeGrows(g, CREATE_FIREWALLS, CREATE_NETWORKS);
      EnsureStep(CREATE_FIREWALLS);
      if CREATE_NETWORKS in steps {
        var ok := AddDependency(CREATE_FIREWALLS, CREATE_NETWORKS);
      }
      if CREATE_VMS in steps {
        var ok := AddDependency(CREATE_VMS, CREATE_FIREWALLS);
      }
    }

    // A VM that took the step's name has left no quotas in it to add to.
    method WaitForQuota(disks: bool)
      requires Valid() && (if disks then WAIT_DISKS_QUOTA else WAIT_VM_QUOTA) !in own
      modifies this`steps, this`rank, this`top
      ensures Valid() && Built() == AddStep(old(Built()), if disks then WAIT_DISKS_QUOTA else WAIT_VM_QUOTA)
      ensures old(Counted()) ==> Counted()
    {
      hide Good, UpTo;
      SharedKeepsNumbering(own, steps, counter, if disks then WAIT_DISKS_QUOTA else WAIT_VM_QUOTA);
      EnsureStep(if disks then WAIT_DISKS_QUOTA else WAIT_VM_QUOTA);
    }

    // -------------------------------------------------------------- finalizing

    // The second part of AddDependency, once the rules of construction no
    // longer apply: the edge leads down the ranking.
    method Link(x: string, y: string)
      requires Ranked(Built(), rank, top) && x in steps && y in steps && rank[y] < rank[x]
      modifies this`deps
      ensures Ranked(Built(), rank, top) && Built() == AddEdge(old(Built()), x, y)
    {
      hide Ranked, AddEdge;
      EdgeGrows(Built(), x, y);
      RankedEdge(Built(), rank, top, x, y);
      var g := AddEdge(Built(), x, y);
      deps := g.deps;
    }

    // The creation step comes to depend on the quota step, and the quota step
    // inherits its other dependencies.
    method Rewire(quota: string, create: string)
      requires Ranked(Built(), rank, top) && quota != create
      requires quota in steps && create in steps ==>
        rank[quota] < rank[create] && forall d :: Depends(Built(), create, d) ==> rank[d] < rank[quota]
      modifies this`deps
      ensures Ranked(Built(), rank, top) && Grown(old(Built()), Built()) && Built().steps == old(Built()).steps
      ensures Rewired(old(Built()), Built(), quota, create)
      ensures forall x, y :: x != quota && x != create ==> (Depends(Built(), x, y) <==> Depends(old(Built()), x, y))
    {
      hide Ranked, AddEdge;
      ghost var g := Built();
      if quota !in steps || create !in steps {
        return;
      }
      var inherited := DepsOf(Built(), create);
      EdgesOf(g, rank, top, create);
      for i := 0 to |inherited|
        invariant Ranked(Built(), rank, top) && Built().steps == g.steps
        invariant forall x, y :: Depends(Built(), x, y) <==> Depends(g, x, y) || (x == quota && y in inherited[..i])
      {
        var d := inherited[i];
        assert d in inherited && Depends(g, create, d);
        assert inherited[..i + 1] == inherited[..i] + [d];
        AddedEdge(Built(), quota, d);
        if d in steps {
          Link(quota, d);
        }
      }
      AddedEdge(Built(), create, quota);
      Link(create, quota);
    }

    // Both quota steps, in either order.
    method RewireBoth(disksFirst: bool)
      requires Valid() && WAIT_VM_QUOTA !in own && WAIT_DISKS_QUOTA !in own
      modifies this`deps
      ensures Ranked(Built(), rank, top) && Grown(old(Built()), Built()) && steps == old(steps)
      ensures Rewired(old(Built()), Built(), WAIT_VM_QUOTA, CREATE_VMS)
      ensures Rewired(old(Built()), Built(), WAIT_DISKS_QUOTA, CREATE_DISKS)
    {
      hide Ranked, AddEdge, Good, Rewired, Grown, Depends;
      ghost var g := Built();
      StartsRanked(g, rank, top, own);
      CreationDeps(g, rank, top, own);
      if disksFirst {
        Rewire(WAIT_DISKS_QUOTA, CREATE_DISKS);
        ghost var h := Built();
        Rewire(WAIT_VM_QUOTA, CREATE_VMS);
        RewiredTwice(g, h, Built(), WAIT_DISKS_QUOTA, CREATE_DISKS, WAIT_VM_QUOTA, CREATE_VMS);
      } else {
        Rewire(WAIT_VM_QUOTA, CREATE_VMS);
        ghost var h := Built();
        Rewire(WAIT_DISKS_QUOTA, CREATE_DISKS);
        RewiredTwice(g, h, Built(), WAIT_VM_QUOTA, CREATE_VMS, WAIT_DISKS_QUOTA, CREATE_DISKS);
      }
    }

    // Rewires both quota steps and adds the step that copies the results,
    // behind every wait step. A quota step must have its quotas: finalizing
    // reads them, and none are there where a VM took the name.
    method Finalize(disksFirst: bool) returns (ok: bool)
      requires Valid() && WAIT_VM_QUOTA !in own && WAIT_DISKS_QUOTA !in own
      modifies this`steps, this`deps, this`rank, this`top
      ensures Ranked(Built(), rank, top) && Acyclic(Built()) && Grown(old(Built()), Built())
      ensures ok <==> COPY_OBJECTS !in old(steps)
      ensures Rewired(old(Built()), Built(), WAIT_VM_QUOTA, CREATE_VMS)
      ensures Rewired(old(Built()), Built(), WAIT_DISKS_QUOTA, CREATE_DISKS)
      ensures ok ==> forall vm :: WaitName(vm) in steps ==> Depends(Built(), COPY_OBJECTS, WaitName(vm))
      ensures ok ==> forall step :: Depends(Built(), COPY_OBJECTS, step) ==>
        step in steps && exists vm :: step == WaitName(vm)
    {
      WaitStepsAreWaits();
      hide Ranked, AddEdge, Good, IsWait, WaitName, Rewired, Acyclic, Grown, Depends;
      ghost var g := Built();
      RewireBoth(disksFirst);
      ghost var h := Built();
      RankedIsAcyclic(h, rank, top);
      if COPY_OBJECTS in steps {
        return false;
      }
      AddCopy();
      RankedIsAcyclic(Built(), rank, top);
      GrownTransitive(g, h, Built());
      RewiredGrows(g, h, Built(), WAIT_VM_QUOTA, CREATE_VMS);
      RewiredGrows(g, h, Built(), WAIT_DISKS_QUOTA, CREATE_DISKS);
      ok := true;
    }

    method AddCopy()
      requires Ranked(Built(), rank, top) && COPY_OBJECTS !in steps
      modifies this`steps, this`deps, this`rank, this`top
      ensures Ranked(Built(), rank, top) && Grown(old(Built()), Built())
      ensures forall step :: Depends(Built(), COPY_OBJECTS, step) <==> step in steps && IsWait(step)
    {
      hide Ranked, AddEdge, IsWait, Grown, Depends;
      ghost var h := Built();
      RanksBelow(h, rank, top);
      NoEdgesYet(h, rank, top, COPY_OBJECTS);
      SameEdges(h, COPY_OBJECTS);
      RankedStep(h, rank, top, COPY_OBJECTS);
      StepGrows(h, COPY_OBJECTS);
      steps := steps + {COPY_OBJECTS};
      rank, top := rank[COPY_OBJECTS := top], top + 1;
      CopyAfterWaits(h);
      GrownTransitive(h, AddStep(h, COPY_OBJECTS), Built());
    }

    method CopyAfterWaits(ghost h: Graph)
      requires Ranked(Built(), rank, top) && Built() == AddStep(h, COPY_OBJECTS)
      requires COPY_OBJECTS in rank && rank[COPY_OBJECTS] == top - 1
      requires forall x :: x in rank && x != COPY_OBJECTS ==> rank[x] < top - 1
      requires forall step :: !Depends(Built(), COPY_OBJECTS, step)
      modifies this`deps
      ensures Ranked(Built(), rank, top) && steps == old(steps) && Grown(AddStep(h, COPY_OBJECTS), Built())
      ensures forall step :: Depends(Built(), COPY_OBJECTS, step) <==> step in steps && IsWait(step)
    {
      hide Ranked, AddEdge, Grown;
      ghost var g := Built();
      GrownReflexive(g);
      StepsRanked(g, rank, top);
      var todo := steps;
      while todo != {}
        invariant todo <= steps && steps == g.steps && Ranked(Built(), rank, top) && Grown(g, Built())
        invariant forall step :: Depends(Built(), COPY_OBJECTS, step) <==> step in steps - todo && IsWait(step)
        decreases |todo|
      {
        var step :| step in todo;
        todo := todo - {step};
        if IsWait(step) {
          ghost var k := Built();
          EdgeGrows(k, COPY_OBJECTS, step);
          AddedEdge(k, COPY_OBJECTS, step);
          GrownTransitive(g, k, AddEdge(k, COPY_OBJECTS, step));
          CopyIsNoWait();
          Link(COPY_OBJECTS, step);
        }
      }
    }
  }
}
