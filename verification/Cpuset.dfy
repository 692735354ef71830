// CPU sets and their list format: ranges of CPU numbers separated by commas.
module Cpusets {
  import opened Options
  import opened Decimal
  import opened Text

  // --------------------------------------------------------------- the bits

  // A big integer by its bits, lowest first; the last one is set.
  type Bits = seq<bool>

  predicate Normal(b: Bits) {
    b != [] ==> b[|b| - 1]
  }

  function Members(b: Bits): set<nat> {
    set i: nat | i < |b| && b[i]
  }

  function SetBit(b: Bits, i: nat): (r: Bits)
    ensures Normal(b) ==> Normal(r)
    ensures Members(r) == Members(b) + {i}
  {
    if i < |b| then b[i := true]
    else
      var r := b + seq(i - |b|, _ => false) + [true];
      assert forall k :: |b| <= k < i ==> !r[k];
      r
  }

  // Equal sets have equal bits.
  lemma NormalIsCanonical(a: Bits, b: Bits)
    requires Normal(a) && Normal(b) && Members(a) == Members(b)
    ensures a == b
  {
    forall x, y | Normal(x) && Normal(y) && Members(x) == Members(y) ensures |x| <= |y| {
      if |x| > 0 {
        assert |x| - 1 in Members(x);
      }
    }
    assert |a| == |b|;
    forall i | 0 <= i < |a| ensures a[i] == b[i] {
      assert i in Members(a) <==> i in Members(b);
    }
  }

  // ------------------------------------------------------------ the meaning

  function Interval(start: int, end: int): (c: set<nat>)
    ensures forall i: nat :: i in c <==> start <= i <= end
    decreases if end < 0 then 0 else end + 1
  {
    if end < start || end < 0 then {} else Interval(start, end - 1) + {end}
  }

  // A single number, or two joined by a dash, the first not the larger.
  function ParseRange(t: string): Option<(int, int)> {
    if '-' in t then
      var parts := Split(t, '-');
      if |parts| != 2 || Atoi(parts[0]).None? || Atoi(parts[1]).None? then None
      else Ordered(Atoi(parts[0]).value, Atoi(parts[1]).value)
    else if Atoi(t).None? then None
    else Ordered(Atoi(t).value, Atoi(t).value)
  }

  function Ordered(start: int, end: int): Option<(int, int)> {
    if start > end then None else Some((start, end))
  }

  // The union of the ranges; blank ones are skipped, a bad one spoils the list.
  function ParseParts(parts: seq<string>): Option<set<nat>> {
    if parts == [] then Some({})
    else
      var front := ParseParts(parts[..|parts| - 1]);
      var t := TrimSpace(parts[|parts| - 1]);
      if front.None? then None
      else if t == "" then front
      else if ParseRange(t).None? then None
      else Some(front.value + Interval(ParseRange(t).value.0, ParseRange(t).value.1))
  }

  function ParseList(s: string): Option<set<nat>> {
    if s == "" then Some({}) else ParseParts(Split(s, ','))
  }

  lemma {:induction false} BadPartSpoils(parts: seq<string>, k: nat)
    requires k <= |parts| && ParseParts(parts[..k]).None?
    ensures ParseParts(parts).None?
    decreases |parts|
  {
    if k < |parts| {
      assert parts[..|parts| - 1][..k] == parts[..k];
      BadPartSpoils(parts[..|parts| - 1], k);
    } else {
      assert parts[..k] == parts;
    }
  }

  // -------------------------------------------------------------- the parser

  method ParseOneRange(t: string) returns (r: Option<(int, int)>)
    ensures r == ParseRange(t)
    ensures r.Some? ==> 0 <= r.value.0 <= r.value.1
  {
    var start, end := 0, 0;
    if '-' in t {
      var parts := Split(t, '-');
      if |parts| != 2 {
        return None;
      }
      var a := Atoi(parts[0]);
      if a.None? {
        return None;
      }
      var b := Atoi(parts[1]);
      if b.None? {
        return None;
      }
      AtoiUnsigned(parts[0]);
      start, end := a.value, b.value;
    } else {
      var a := Atoi(t);
      if a.None? {
        return None;
      }
      AtoiUnsigned(t);
      start, end := a.value, a.value;
    }
    if start > end {
      return None;
    }
    return Some((start, end));
  }

  method ParseCpusetList(s: string) returns (r: Option<Bits>)
    ensures r.Some? <==> ParseList(s).Some?
    ensures r.Some? ==> Normal(r.value) && Members(r.value) == ParseList(s).value
  {
    if s == "" {
      return Some([]);
    }
    hide ParseRange, Split, TrimSpace, SetBit, Normal, Members, Interval;
    var cpus: Bits := [];
    NoBits();
    var parts := Split(s, ',');
    for i := 0 to |parts|
      invariant Normal(cpus) && ParseParts(parts[..i]) == Some(Members(cpus))
    {
      assert parts[..i + 1][..i] == parts[..i];
      var t := TrimSpace(parts[i]);
      if t == "" {
        continue;
      }
      var range := ParseOneRange(t);
      if range.None? {
        BadPartSpoils(parts, i + 1);
        return None;
      }
      cpus := SetRange(cpus, range.value.0, range.value.1);
    }
    assert parts[..|parts|] == parts;
    return Some(cpus);
  }

  lemma NoBits()
    ensures Normal([]) && Members([]) == {}
  {
  }

  method SetRange(b: Bits, start: nat, end: nat) returns (r: Bits)
    requires Normal(b) && start <= end
    ensures Normal(r) && Members(r) == Members(b) + Interval(start, end)
  {
    hide SetBit, Normal, Members;
    r := b;
    var cpu := start;
    assert Interval(start, start - 1) == {};
    while cpu <= end
      invariant start <= cpu <= end + 1
      invariant Normal(r) && Members(r) == Members(b) + Interval(start, cpu - 1)
    {
      r := SetBit(r, cpu);
      assert Interval(start, cpu) == Interval(start, cpu - 1) + {cpu};
      cpu := cpu + 1;
    }
  }

  // ------------------------------------------------------------- the printer

  datatype Range = Range(start: nat, end: nat)

  function CoveredBy(ranges: seq<Range>): set<nat> {
    if ranges == [] then {}
    else CoveredBy(ranges[..|ranges| - 1]) + Interval(ranges[|ranges| - 1].start, ranges[|ranges| - 1].end)
  }

  // The maximal runs of a set in ascending order: between two there is a gap.
  ghost predicate RunsOf(ranges: seq<Range>, c: set<nat>) {
    && (forall i :: 0 <= i < |ranges| ==> ranges[i].start <= ranges[i].end)
    && (forall i, j :: 0 <= i < j < |ranges| ==> ranges[i].end + 1 < ranges[j].start)
    && CoveredBy(ranges) == c
  }

  function PrintRange(r: Range): string {
    if r.start == r.end then Itoa(r.start) else Itoa(r.start) + "-" + Itoa(r.end)
  }

  function Printed(ranges: seq<Range>): seq<string> {
    if ranges == [] then [] else Printed(ranges[..|ranges| - 1]) + [PrintRange(ranges[|ranges| - 1])]
  }

  function PrintList(ranges: seq<Range>): string {
    Join(Printed(ranges), ',')
  }

  lemma {:induction false} CoveredMember(ranges: seq<Range>, x: nat)
    ensures x in CoveredBy(ranges) <==> exists i :: 0 <= i < |ranges| && ranges[i].start <= x <= ranges[i].end
  {
    if ranges != [] {
      var n := |ranges| - 1;
      CoveredMember(ranges[..n], x);
      assert forall i :: 0 <= i < n ==> ranges[..n][i] == ranges[i];
    }
  }

  // The ends of the last runs agree: no number beyond either is in the set.
  lemma LastRunsAgree(p: seq<Range>, q: seq<Range>, c: set<nat>)
    requires RunsOf(p, c) && RunsOf(q, c) && p != []
    ensures q != [] && p[|p| - 1] == q[|q| - 1]
  {
    var a := p[|p| - 1];
    CoveredMember(p, a.end);
    CoveredMember(q, a.end);
    var b := q[|q| - 1];
    CoveredMember(q, b.end);
    CoveredMember(p, b.end);
    assert a.end == b.end;
    LastStart(p, q, c);
    LastStart(q, p, c);
  }

  // The last run of q starts no later than that of p: it cannot start within it.
  lemma LastStart(p: seq<Range>, q: seq<Range>, c: set<nat>)
    requires RunsOf(p, c) && RunsOf(q, c) && p != [] && q != []
    requires p[|p| - 1].end == q[|q| - 1].end
    ensures q[|q| - 1].start <= p[|p| - 1].start
  {
    LastRunInside(p, c);
    GapBeforeLastRun(q, c);
  }

  lemma LastRunInside(p: seq<Range>, c: set<nat>)
    requires RunsOf(p, c) && p != []
    ensures forall x: nat :: p[|p| - 1].start <= x <= p[|p| - 1].end ==> x in c
  {
  }

  lemma GapBeforeLastRun(q: seq<Range>, c: set<nat>)
    requires RunsOf(q, c) && q != []
    ensures q[|q| - 1].start > 0 ==> q[|q| - 1].start - 1 !in c
  {
    if q[|q| - 1].start > 0 {
      CoveredMember(q, q[|q| - 1].start - 1);
    }
  }

  // The list of maximal runs is unique, so equal sets print identically.
  lemma {:induction false} RunsAreUnique(p: seq<Range>, q: seq<Range>, c: set<nat>)
    requires RunsOf(p, c) && RunsOf(q, c)
    ensures p == q
  {
    hide RunsOf, Interval, CoveredBy;
    if p == [] {
      if q != [] { LastRunsAgree(q, p, c); }
    } else {
      LastRunsAgree(p, q, c);
      var n, m := |p| - 1, |q| - 1;
      var last := Interval(p[n].start, p[n].end);
      WithoutLast(p, c);
      WithoutLast(q, c);
      RunsAreUnique(p[..n], q[..m], c - last);
      assert p == p[..n] + [p[n]] && q == q[..m] + [q[m]];
    }
  }

  lemma WithoutLast(p: seq<Range>, c: set<nat>)
    requires RunsOf(p, c) && p != []
    ensures RunsOf(p[..|p| - 1], c - Interval(p[|p| - 1].start, p[|p| - 1].end))
  {
    var n := |p| - 1;
    forall x | x in CoveredBy(p[..n]) ensures x !in Interval(p[n].start, p[n].end) {
      CoveredMember(p[..n], x);
    }
  }

  function SetOf(cpus: seq<nat>): set<nat> {
    set x | x in cpus
  }

  ghost predicate Ascending(cpus: seq<nat>) {
    forall i, j :: 0 <= i < j < |cpus| ==> cpus[i] < cpus[j]
  }

  method SortedCPUs(b: Bits) returns (cpus: seq<nat>)
    ensures Ascending(cpus) && SetOf(cpus) == Members(b)
  {
    cpus := [];
    for i := 0 to |b|
      invariant Ascending(cpus) && forall x: nat :: x in cpus <==> x < i && b[x]
    {
      if b[i] {
        assert forall k :: 0 <= k < |cpus| ==> cpus[k] in cpus;
        cpus := cpus + [i];
      }
    }
  }

  // The last run is extended in place while the numbers are consecutive.
  method MaximalRuns(cpus: seq<nat>) returns (ranges: seq<Range>)
    requires Ascending(cpus) && cpus != []
    ensures RunsOf(ranges, SetOf(cpus)) && ranges != []
  {
    hide RunsOf, SetOf;
    ranges := [Range(cpus[0], cpus[0])];
    FirstRun(cpus);
    for i := 1 to |cpus|
      invariant ranges != [] && RunsOf(ranges, SetOf(cpus[..i])) && ranges[|ranges| - 1].end == cpus[i - 1]
    {
      var last := ranges[|ranges| - 1];
      NextCPU(cpus, i);
      if cpus[i] == last.end + 1 {
        RunExtended(ranges, SetOf(cpus[..i]));
        ranges := ranges[|ranges| - 1 := Range(last.start, cpus[i])];
      } else {
        RunAppended(ranges, SetOf(cpus[..i]), cpus[i]);
        ranges := ranges + [Range(cpus[i], cpus[i])];
      }
    }
    assert cpus[..|cpus|] == cpus;
  }

  lemma FirstRun(cpus: seq<nat>)
    requires cpus != []
    ensures RunsOf([Range(cpus[0], cpus[0])], SetOf(cpus[..1]))
  {
    assert [Range(cpus[0], cpus[0])][..0] == [];
  }

  lemma NextCPU(cpus: seq<nat>, i: nat)
    requires 0 < i < |cpus| && Ascending(cpus)
    ensures SetOf(cpus[..i + 1]) == SetOf(cpus[..i]) + {cpus[i]} && cpus[i - 1] < cpus[i]
  {
  }

  lemma RunExtended(ranges: seq<Range>, c: set<nat>)
    requires RunsOf(ranges, c) && ranges != []
    ensures var last := ranges[|ranges| - 1];
      RunsOf(ranges[|ranges| - 1 := Range(last.start, last.end + 1)], c + {last.end + 1})
  {
    var n := |ranges| - 1;
    assert ranges[n := Range(ranges[n].start, ranges[n].end + 1)][..n] == ranges[..n];
  }

  lemma RunAppended(ranges: seq<Range>, c: set<nat>, x: nat)
    requires RunsOf(ranges, c) && ranges != [] && ranges[|ranges| - 1].end + 1 < x
    ensures RunsOf(ranges + [Range(x, x)], c + {x})
  {
    assert (ranges + [Range(x, x)])[..|ranges|] == ranges;
    assert forall i :: 0 <= i < |ranges| ==> ranges[i].end <= ranges[|ranges| - 1].end;
  }

  // Prints the maximal runs of the set.
  method ListString(b: Bits) returns (s: string)
    requires Normal(b)
    ensures exists runs :: RunsOf(runs, Members(b)) && s == PrintList(runs)
  {
    hide RunsOf, PrintList, PrintRange;
    if b == [] {
      NoRuns();
      return "";
    }
    var cpus := SortedCPUs(b);
    assert |b| - 1 in Members(b);
    var ranges := MaximalRuns(cpus);
    s := "";
    NoRuns();
    for i := 0 to |ranges|
      invariant s == PrintList(ranges[..i])
    {
      var r := ranges[i];
      PrintOneMore(ranges, i);
      if i > 0 {
        s := s + ",";
      }
      if r.start == r.end {
        s := s + Itoa(r.start);
      } else {
        s := s + (Itoa(r.start) + "-" + Itoa(r.end));
      }
    }
    assert ranges[..|ranges|] == ranges;
  }

  lemma NoRuns()
    ensures RunsOf([], {}) && RunsOf([], Members([])) && PrintList([]) == ""
  {
  }

  lemma PrintOneMore(ranges: seq<Range>, i: nat)
    requires i < |ranges|
    ensures var r := ranges[i];
      var printed := if r.start == r.end then Itoa(r.start) else Itoa(r.start) + "-" + Itoa(r.end);
      PrintList(ranges[..i + 1]) == (if i > 0 then PrintList(ranges[..i]) + "," else "") + printed
  {
    PrintedLength(ranges[..i]);
    assert ranges[..i + 1][..i] == ranges[..i];
    var parts := Printed(ranges[..i + 1]);
    assert parts[..i] == Printed(ranges[..i]);
  }

  lemma {:induction false} PrintedLength(ranges: seq<Range>)
    ensures |Printed(ranges)| == |ranges|
  {
    if ranges != [] { PrintedLength(ranges[..|ranges| - 1]); }
  }

  // --------------------------------------------------------------- round trip

  // The parts print without commas and blanks, and parse back one by one.
  lemma {:induction false} PrintedParts(ranges: seq<Range>)
    requires forall i :: 0 <= i < |ranges| ==> ranges[i].start <= ranges[i].end <= MAX_INT
    ensures |Printed(ranges)| == |ranges| && forall i :: 0 <= i < |ranges| ==> ',' !in Printed(ranges)[i]
    ensures ParseParts(Printed(ranges)) == Some(CoveredBy(ranges))
  {
    hide PrintRange, TrimSpace, ParseRange, Interval;
    if ranges != [] {
      var n := |ranges| - 1;
      PrintedParts(ranges[..n]);
      PrintRangeParses(ranges[n]);
      assert Printed(ranges)[..n] == Printed(ranges[..n]);
    }
  }

  lemma PrintRangeParses(r: Range)
    requires r.start <= r.end <= MAX_INT
    ensures var t := PrintRange(r);
      ',' !in t && t != "" && TrimSpace(t) == t && ParseRange(t) == Some((r.start, r.end))
  {
    hide Split, Atoi, Itoa;
    var a, b := Itoa(r.start), Itoa(r.end);
    DigitsOnly(r.start);
    DigitsOnly(r.end);
    AtoiOfItoa(r.start);
    AtoiOfItoa(r.end);
    SplitWord(a, '-');
    SplitAppended(a, b, '-');
    assert a + ['-'] + b == a + "-" + b;
    var t := PrintRange(r);
    if r.start != r.end {
      assert t[|a|] == '-';
    }
    assert t[0] == a[0] && t[|t| - 1] == b[|b| - 1];
  }

  lemma DigitsOnly(n: nat)
    ensures var s := Itoa(n);
      '-' !in s && ',' !in s && s != "" && !IsSpace(s[0]) && !IsSpace(s[|s| - 1])
  {
    var s := Itoa(n);
    assert IsDigit(s[0]) && IsDigit(s[|s| - 1]);
  }

  // Parsing undoes printing, for every set of CPU numbers.
  lemma RoundTrip(ranges: seq<Range>, c: set<nat>)
    requires RunsOf(ranges, c) && forall x :: x in c ==> x <= MAX_INT
    ensures ParseList(PrintList(ranges)) == Some(c)
  {
    hide ParseParts, Printed, Join, Split;
    if ranges != [] {
      forall i | 0 <= i < |ranges| ensures ranges[i].end <= MAX_INT {
        CoveredMember(ranges, ranges[i].end);
      }
      PrintedParts(ranges);
      SplitJoin(Printed(ranges), ',');
      NotBlank(ranges);
    } else {
      NothingPrinted();
    }
  }

  lemma NothingPrinted()
    ensures Join(Printed([]), ',') == "" && ParseList("") == Some({})
  {
  }

  lemma NotBlank(ranges: seq<Range>)
    requires ranges != []
    ensures Join(Printed(ranges), ',') != ""
  {
  }

  // ------------------------------------------------------------ for every set

  lemma {:induction false} Greatest(c: set<nat>) returns (m: nat)
    requires c != {}
    ensures m in c && forall x :: x in c ==> x <= m
  {
    m :| m in c;
    var rest := c - {m};
    if rest != {} {
      var k := Greatest(rest);
      assert c == rest + {m};
      if k > m { m := k; }
    } else {
      assert c == {m};
    }
  }

  // Every finite set has a list of maximal runs, ending with its greatest member.
  lemma {:induction false} RunsExist(c: set<nat>) returns (ranges: seq<Range>)
    ensures RunsOf(ranges, c)
    decreases c
  {
    hide RunsOf;
    if c == {} {
      NoRuns();
      return [];
    }
    var m := Greatest(c);
    var front := RunsExist(c - {m});
    assert c - {m} + {m} == c;
    if front == [] {
      EmptyRuns(c - {m});
      assert c == {m};
      OneRun(m);
      return [Range(m, m)];
    }
    LastEnd(front, c - {m});
    if front[|front| - 1].end + 1 == m {
      RunExtended(front, c - {m});
      return front[|front| - 1 := Range(front[|front| - 1].start, m)];
    }
    RunAppended(front, c - {m}, m);
    return front + [Range(m, m)];
  }

  lemma EmptyRuns(c: set<nat>)
    requires RunsOf([], c)
    ensures c == {}
  {
  }

  lemma OneRun(m: nat)
    ensures RunsOf([Range(m, m)], {m})
  {
    assert [Range(m, m)][..0] == [];
  }

  lemma LastEnd(ranges: seq<Range>, c: set<nat>)
    requires RunsOf(ranges, c) && ranges != []
    ensures ranges[|ranges| - 1].end in c
  {
    CoveredMember(ranges, ranges[|ranges| - 1].end);
  }

  // The list format is canonical: every finite set of CPU numbers is printed
  // in one way only, and parsing that gives the set back.
  lemma ListFormatIsCanonical(c: set<nat>)
    requires forall x :: x in c ==> x <= MAX_INT
    ensures exists ranges ::
      && RunsOf(ranges, c) && ParseList(PrintList(ranges)) == Some(c)
      && forall others :: RunsOf(others, c) ==> others == ranges
  {
    hide RunsOf, ParseList, PrintList;
    var ranges := RunsExist(c);
    RoundTrip(ranges, c);
    forall others | RunsOf(others, c) ensures others == ranges {
      RunsAreUnique(others, ranges, c);
    }
  }
}
