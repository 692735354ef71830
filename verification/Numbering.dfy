// The counter that keeps step names apart.
module Numbering {
  import opened Graphs
  import opened Decimal
  import opened Fixtures

  ghost predicate Ends(step: string, p: string, k: nat) {
    step == p + "-" + Itoa(k)
  }

  // A name of several words does not end in a number.
  ghost predicate Unnumbered(step: string) {
    forall p, k: nat :: Ends(step, p, k) ==> '-' !in p
  }

  // A name of several words does not end in a number beyond the counter.
  ghost predicate Within(step: string, counter: nat) {
    forall p, k: nat :: Ends(step, p, k) && '-' in p ==> k <= counter
  }

  ghost predicate UpTo(steps: set<string>, counter: nat) {
    forall step :: step in steps ==> Within(step, counter)
  }

  lemma ItoaHasNoDash(k: nat)
    ensures '-' !in Itoa(k)
  {
    var s := Itoa(k);
    forall i | 0 <= i < |s| ensures s[i] != '-' {
      assert IsDigit(s[i]);
    }
  }

  // The number at the end of a name is the digits behind its last dash.
  lemma EndsOnce(step: string, p: string, k: nat, q: string, j: nat)
    requires Ends(step, p, k) && Ends(step, q, j)
    ensures k == j && p == q
  {
    SameDigits(step, p, k, q, j);
    SameDigits(step, q, j, p, k);
    assert step[|step| - |Itoa(k)|..] == Itoa(k) && step[|step| - |Itoa(j)|..] == Itoa(j);
    NumberOfItoa(k);
    NumberOfItoa(j);
    assert step[..|step| - |Itoa(k)| - 1] == p && step[..|step| - |Itoa(j)| - 1] == q;
  }

  lemma SameDigits(step: string, p: string, k: nat, q: string, j: nat)
    requires Ends(step, p, k) && Ends(step, q, j)
    ensures |Itoa(k)| >= |Itoa(j)|
  {
    ItoaHasNoDash(j);
    forall m | |q| < m < |step| ensures step[m] != '-' {
      assert step[m] == Itoa(j)[m - |q| - 1];
    }
    assert step[|step| - |Itoa(k)| - 1] == '-';
  }

  // A name made with the next number is new.
  lemma NextIsNew(steps: set<string>, counter: nat, start: string, vm: string, k: nat)
    requires UpTo(steps, counter) && counter < k && '-' in start
    ensures start + Suffix(vm, k) !in steps
  {
    assert start + Suffix(vm, k) == (start + vm) + "-" + Itoa(k);
    assert Ends(start + Suffix(vm, k), start + vm, k);
    assert '-' in start + vm;
  }

  lemma NextNumberIsNew(steps: set<string>, counter: nat, k: nat)
    requires UpTo(steps, counter) && counter < k
    ensures "create-vms-" + Itoa(k) !in steps
  {
    assert "create-vms-" + Itoa(k) == "create-vms" + "-" + Itoa(k);
    assert Ends("create-vms-" + Itoa(k), "create-vms", k);
    assert "create-vms"[6] == '-';
  }

  lemma NumberedWithin(start: string, vm: string, k: nat)
    ensures Within(start + Suffix(vm, k), k)
  {
    var step := start + Suffix(vm, k);
    assert step == (start + vm) + "-" + Itoa(k);
    forall p, j: nat | Ends(step, p, j) && '-' in p ensures j <= k {
      EndsOnce(step, start + vm, k, p, j);
    }
  }

  lemma CreatedWithin(k: nat)
    ensures Within("create-vms-" + Itoa(k), k)
  {
    var step := "create-vms-" + Itoa(k);
    assert step == "create-vms" + "-" + Itoa(k);
    forall p, j: nat | Ends(step, p, j) && '-' in p ensures j <= k {
      EndsOnce(step, "create-vms", k, p, j);
    }
  }

  // New steps within the new counter keep the numbering.
  lemma StaysUpTo(steps: set<string>, counter: nat, more: set<string>, names: set<string>, counter': nat)
    requires UpTo(steps, counter) && counter <= counter' && more <= steps + names
    requires forall name :: name in names ==> Within(name, counter')
    ensures UpTo(more, counter')
  {
    hide Within;
    forall step | step in steps ensures Within(step, counter') {
      WithinMore(step, counter, counter');
    }
  }

  lemma WithinMore(step: string, counter: nat, counter': nat)
    requires Within(step, counter) && counter <= counter'
    ensures Within(step, counter')
  {
  }

  lemma UnnumberedWithin(step: string, k: nat)
    requires Unnumbered(step)
    ensures Within(step, k)
  {
  }

  // A name that does not end in a digit is not numbered.
  lemma NoDigitAtEnd(step: string)
    requires step != "" && !IsDigit(step[|step| - 1])
    ensures Unnumbered(step)
  {
    forall p, k: nat | Ends(step, p, k) ensures '-' !in p {
      assert IsDigit(Itoa(k)[|Itoa(k)| - 1]);
      assert step[|step| - 1] == Itoa(k)[|Itoa(k)| - 1];
    }
  }

  // The wait step of a VM without a dash in its name is not numbered.
  lemma PlainWaitIsUnnumbered(vm: string)
    requires '-' !in vm
    ensures Unnumbered(WaitName(vm))
  {
    var step := WaitName(vm);
    forall p, k: nat | Ends(step, p, k) ensures '-' !in p {
      assert step[|p|] == '-';
      assert forall i :: 4 < i < |step| ==> step[i] == vm[i - 5];
      assert |p| <= 4;
      assert forall i :: 0 <= i < |p| ==> p[i] == step[i];
      assert step[0] == 'w' && step[1] == 'a' && step[2] == 'i' && step[3] == 't';
    }
  }

  // The shared steps are not numbered.
  lemma SharedIsUnnumbered(own: set<string>, step: string)
    requires Shared(own, step)
    ensures Unnumbered(step)
  {
    assert CREATE_VMS[|CREATE_VMS| - 1] == 's' && CREATE_DISKS[|CREATE_DISKS| - 1] == 's';
    assert CREATE_NETWORKS[|CREATE_NETWORKS| - 1] == 's' && CREATE_FIREWALLS[|CREATE_FIREWALLS| - 1] == 's';
    assert CREATE_SUBNETWORKS[|CREATE_SUBNETWORKS| - 1] == 's';
    assert WAIT_VM_QUOTA[|WAIT_VM_QUOTA| - 1] == 'a' && WAIT_DISKS_QUOTA[|WAIT_DISKS_QUOTA| - 1] == 'a';
    NoDigitAtEnd(step);
  }

  // All names made with one number.
  function NamesOf(s: string, k: nat): set<string> {
    {"stop-" + s, "wait-stopped-stopped-" + s, "start-" + s, "wait-started-" + s, "resize-disk-" + s,
     "detach-disk-" + s, "wait-suspended-" + s, "resume-" + s, "create-vms-" + Itoa(k)}
  }

  // They are new as long as no step is numbered as high, and are numbered no
  // higher themselves.
  lemma NamesAreNew(steps: set<string>, counter: nat, vm: string, k: nat)
    requires UpTo(steps, counter) && counter < k
    ensures NamesOf(Suffix(vm, k), k) !! steps
  {
    hide UpTo, Suffix;
    assert "stop-"[4] == '-' && "wait-stopped-stopped-"[4] == '-' && "start-"[5] == '-' && "wait-started-"[4] == '-';
    assert "resize-disk-"[6] == '-' && "detach-disk-"[6] == '-' && "wait-suspended-"[4] == '-' && "resume-"[6] == '-';
    NextIsNew(steps, counter, "stop-", vm, k);
    NextIsNew(steps, counter, "wait-stopped-stopped-", vm, k);
    NextIsNew(steps, counter, "start-", vm, k);
    NextIsNew(steps, counter, "wait-started-", vm, k);
    NextIsNew(steps, counter, "resize-disk-", vm, k);
    NextIsNew(steps, counter, "detach-disk-", vm, k);
    NextIsNew(steps, counter, "wait-suspended-", vm, k);
    NextIsNew(steps, counter, "resume-", vm, k);
    NextNumberIsNew(steps, counter, k);
  }

  lemma NamesWithin(vm: string, k: nat)
    ensures forall name :: name in NamesOf(Suffix(vm, k), k) ==> Within(name, k)
  {
    hide Within, Suffix;
    NumberedWithin("stop-", vm, k);
    NumberedWithin("wait-stopped-stopped-", vm, k);
    NumberedWithin("start-", vm, k);
    NumberedWithin("wait-started-", vm, k);
    NumberedWithin("resize-disk-", vm, k);
    NumberedWithin("detach-disk-", vm, k);
    NumberedWithin("wait-suspended-", vm, k);
    NumberedWithin("resume-", vm, k);
    CreatedWithin(k);
  }

  // Steps made with the next number keep the numbering.
  lemma NextKeepsNumbering(steps: set<string>, counter: nat, more: set<string>, vm: string)
    requires UpTo(steps, counter) && more <= steps + NamesOf(Suffix(vm, counter + 1), counter + 1)
    ensures UpTo(more, counter + 1)
  {
    hide NamesOf, Within, UpTo, Suffix;
    NamesWithin(vm, counter + 1);
    StaysUpTo(steps, counter, more, NamesOf(Suffix(vm, counter + 1), counter + 1), counter + 1);
  }

  // So do shared steps, and wait steps that are not numbered.
  lemma OthersKeepNumbering(own: set<string>, steps: set<string>, counter: nat, more: set<string>, wait: string)
    requires UpTo(steps, counter) && Unnumbered(wait)
    requires forall step :: step in more ==> step in steps || Shared(own, step) || step == wait
    ensures UpTo(more, counter)
  {
    hide Shared, Unnumbered, Within;
    forall step | step in more ensures Within(step, counter) {
      if step !in steps {
        if Shared(own, step) { SharedIsUnnumbered(own, step); }
        UnnumberedWithin(step, counter);
      }
    }
  }

  // ------------------------------------------------------- by the operation

  // While the numbering holds the names a reboot makes are new, and whatever
  // part of them is added keeps it.
  lemma RebootNumbering(steps: set<string>, counter: nat, vm: string, more: set<string>)
    requires forall step :: step in more ==> step in steps || step in RebootSteps(Suffix(vm, counter + 1))
    ensures UpTo(steps, counter) ==>
      && (forall step :: step in RebootSteps(Suffix(vm, counter + 1)) ==> step !in steps)
      && UpTo(more, counter + 1)
  {
    hide UpTo, Suffix;
    if UpTo(steps, counter) {
      NamesAreNew(steps, counter, vm, counter + 1);
      NextKeepsNumbering(steps, counter, more, vm);
    }
  }

  lemma ResumeNumbering(steps: set<string>, counter: nat, vm: string, more: set<string>)
    requires forall step :: step in more ==> step in steps || step in ResumeSteps(Suffix(vm, counter + 1))
    ensures UpTo(steps, counter) ==>
      && (forall step :: step in ResumeSteps(Suffix(vm, counter + 1)) ==> step !in steps)
      && UpTo(more, counter + 1)
  {
    hide UpTo, Suffix;
    if UpTo(steps, counter) {
      NamesAreNew(steps, counter, vm, counter + 1);
      NextKeepsNumbering(steps, counter, more, vm);
    }
  }

  // The resize step has the next number, the reboot after it the one after.
  lemma ResizeNumbering(steps: set<string>, counter: nat, vm: string)
    ensures UpTo(steps, counter) ==>
      var s := Suffix(vm, counter + 1);
      && "resize-disk-" + s !in steps
      && UpTo(steps, counter + 1) && UpTo(steps + {"resize-disk-" + s}, counter + 1)
      && forall step :: step in RebootSteps(Suffix(vm, counter + 2)) ==> step !in steps
  {
    hide UpTo, Suffix;
    if UpTo(steps, counter) {
      NamesAreNew(steps, counter, vm, counter + 1);
      NamesAreNew(steps, counter, vm, counter + 2);
      NextKeepsNumbering(steps, counter, steps, vm);
      NextKeepsNumbering(steps, counter, steps + {"resize-disk-" + Suffix(vm, counter + 1)}, vm);
    }
  }

  lemma DerivativeNumbering(steps: set<string>, counter: nat, vm: string, name: string, more: set<string>)
    requires forall step :: step in more ==>
      step in steps || step in DerivativeSteps(Suffix(vm, counter + 1), counter + 1, name)
    ensures UpTo(steps, counter) && Unnumbered("wait-derivative-" + name) ==>
      && (forall step :: step in DerivativeSteps(Suffix(vm, counter + 1), counter + 1, name) ==>
            step !in steps || step == "wait-derivative-" + name)
      && "wait-derivative-" + name in DerivativeSteps(Suffix(vm, counter + 1), counter + 1, name)
      && UpTo(more, counter + 1)
  {
    hide UpTo, Suffix, Unnumbered, Within;
    if UpTo(steps, counter) && Unnumbered("wait-derivative-" + name) {
      var s := Suffix(vm, counter + 1);
      assert DerivativeSteps(s, counter + 1, name)[4] == "wait-derivative-" + name;
      NamesAreNew(steps, counter, vm, counter + 1);
      NamesWithin(vm, counter + 1);
      UnnumberedWithin("wait-derivative-" + name, counter + 1);
      StaysUpTo(steps, counter, more, NamesOf(s, counter + 1) + {"wait-derivative-" + name}, counter + 1);
    }
  }

  lemma SharedKeepsNumbering(own: set<string>, steps: set<string>, counter: nat, step: string)
    requires Shared(own, step)
    ensures UpTo(steps, counter) ==> UpTo(steps + {step}, counter)
  {
    hide UpTo, Shared, Within, Unnumbered;
    if UpTo(steps, counter) {
      SharedIsUnnumbered(own, step);
      UnnumberedWithin(step, counter);
      StaysUpTo(steps, counter, steps + {step}, {step}, counter);
    }
  }

  lemma DisksKeepNumbering(own: set<string>, steps: set<string>, counter: nat)
    ensures UpTo(steps, counter) ==> UpTo(steps + {CREATE_DISKS}, counter)
  {
    FixedEdges(own);
    SharedKeepsNumbering(own, steps, counter, CREATE_DISKS);
  }
}
