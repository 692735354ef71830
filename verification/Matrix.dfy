// From the configured matrix to the list of jobs.
module Matrix {
  import opened Options
  import opened Names
  import opened Jobs
  import opened Text
  import opened Placement

  datatype Shape = Shape(arch: string, cpus: int, family: string, zoneSet: string, maxParallel: int)
  datatype Suite = Suite(vms: int, networks: int, subnets: int, timeout: int, est: int)
  datatype Block = Block(name: string, shapes: seq<string>, images: seq<string>, suites: seq<string>, eachZone: bool)

  datatype Rule =
    | SuiteOnlyOn(suites: seq<string>, shapes: seq<string>)
    | KeepOnly(shapes: seq<string>, suites: seq<string>)
    | Drop(shapes: seq<string>, suites: seq<string>, images: seq<string>)
    | ZoneSet(shapes: seq<string>, suites: seq<string>, name: string)
    | TimeoutFor(shapes: seq<string>, value: int)
    | NoRule

  datatype Quarantine = Quarantine(image: string, shape: string, suite: string, reason: string)
  datatype TierEntry = TierEntry(shape: string, zones: Option<seq<string>>)
  datatype Family = Family(name: string, shape: string, arch: string, cpus: int, family: string, zoneSet: string,
    pinnedZone: string)
  datatype ShapeValidation = ShapeValidation(images: seq<string>, armImages: seq<string>, families: seq<Family>)

  // glob says whether a name matches a pattern; a malformed one matches nothing.
  datatype Plan = Plan(
    imagePrefix: string, zoneSets: map<string, seq<string>>, shapes: map<string, Shape>, suites: map<string, Suite>,
    blocks: seq<Block>, rules: seq<Rule>, quarantine: seq<Quarantine>, tiers: map<string, seq<TierEntry>>,
    validation: ShapeValidation, glob: (string, string) -> bool)

  datatype Filter = Filter(configs: seq<string>, images: seq<string>, shapes: seq<string>, suites: seq<string>,
    tier: string)

  const EVERYTHING := Filter([], [], [], [], "")

  predicate MatchAny(plan: Plan, globs: seq<string>, name: string) {
    exists i :: 0 <= i < |globs| && (plan.glob(globs[i], name) || globs[i] == name)
  }

  // An empty list of patterns admits everything.
  predicate Allows(plan: Plan, globs: seq<string>, name: string) {
    globs == [] || MatchAny(plan, globs, name)
  }

  predicate Admits(plan: Plan, f: Filter, j: Job) {
    && Allows(plan, f.configs, j.config) && Allows(plan, f.images, j.baseImage)
    && Allows(plan, f.shapes, j.shape) && Allows(plan, f.suites, j.suite)
  }

  // ------------------------------------------------------------------- rules

  // The rule by itself drops the job. It only looks at what no rule changes.
  predicate Drops(plan: Plan, r: Rule, suite: string, shape: string, image: string) {
    match r
    case SuiteOnlyOn(suites, shapes) => MatchAny(plan, suites, suite) && !MatchAny(plan, shapes, shape)
    case KeepOnly(shapes, suites) => MatchAny(plan, shapes, shape) && !MatchAny(plan, suites, suite)
    case Drop(shapes, suites, images) => Allows(plan, shapes, shape) && Allows(plan, suites, suite)
      && Allows(plan, images, image)
    case _ => false
  }

  predicate SetsZones(plan: Plan, r: Rule, j: Job) {
    r.ZoneSet? && MatchAny(plan, r.shapes, j.shape) && Allows(plan, r.suites, j.suite)
  }

  predicate SetsTimeout(plan: Plan, r: Rule, j: Job) {
    r.TimeoutFor? && MatchAny(plan, r.shapes, j.shape)
  }

  function ZonesOf(plan: Plan, name: string): seq<string> {
    if name in plan.zoneSets then plan.zoneSets[name] else []
  }

  // The zones of the last rule that sets them, else the job's own.
  ghost predicate LastZones(plan: Plan, rules: seq<Rule>, j: Job, zones: seq<string>) {
    || (zones == j.zones && forall i :: 0 <= i < |rules| ==> !SetsZones(plan, rules[i], j))
    || (exists i :: 0 <= i < |rules| && SetsZones(plan, rules[i], j) && zones == ZonesOf(plan, rules[i].name)
          && forall k :: i < k < |rules| ==> !SetsZones(plan, rules[k], j))
  }

  ghost predicate LastTimeout(plan: Plan, rules: seq<Rule>, j: Job, timeout: int) {
    || (timeout == j.timeout && forall i :: 0 <= i < |rules| ==> !SetsTimeout(plan, rules[i], j))
    || (exists i :: 0 <= i < |rules| && SetsTimeout(plan, rules[i], j) && timeout == rules[i].value
          && forall k :: i < k < |rules| ==> !SetsTimeout(plan, rules[k], j))
  }

  predicate Kept(plan: Plan, rules: seq<Rule>, j: Job) {
    forall i :: 0 <= i < |rules| ==> !Drops(plan, rules[i], j.suite, j.shape, j.baseImage)
  }

  function ZonesAfter(plan: Plan, rules: seq<Rule>, j: Job): seq<string> {
    if rules == [] then j.zones
    else if SetsZones(plan, rules[|rules| - 1], j) then ZonesOf(plan, rules[|rules| - 1].name)
    else ZonesAfter(plan, rules[..|rules| - 1], j)
  }

  function TimeoutAfter(plan: Plan, rules: seq<Rule>, j: Job): int {
    if rules == [] then j.timeout
    else if SetsTimeout(plan, rules[|rules| - 1], j) then rules[|rules| - 1].value
    else TimeoutAfter(plan, rules[..|rules| - 1], j)
  }

  // A kept job takes zones and timeout from the last rules that override them.
  lemma {:induction false} LastRuleWins(plan: Plan, rules: seq<Rule>, j: Job)
    ensures LastZones(plan, rules, j, ZonesAfter(plan, rules, j))
    ensures LastTimeout(plan, rules, j, TimeoutAfter(plan, rules, j))
  {
    hide SetsZones, SetsTimeout, ZonesOf;
    if rules != [] {
      var n := |rules| - 1;
      LastRuleWins(plan, rules[..n], j);
      assert forall i :: 0 <= i < n ==> rules[..n][i] == rules[i];
    }
  }

  function Ruled(plan: Plan, j: Job): Job {
    j.(zones := ZonesAfter(plan, plan.rules, j), timeout := TimeoutAfter(plan, plan.rules, j))
  }

  // A job is kept exactly when no rule drops it, wherever the rule stands.
  method KeepJob(plan: Plan, j: Job) returns (kept: bool, j': Job)
    ensures kept <==> Kept(plan, plan.rules, j)
    ensures kept ==> j' == Ruled(plan, j)
  {
    hide MatchAny, Allows, ZonesOf;
    j' := j;
    for i := 0 to |plan.rules|
      invariant j' == j.(zones := ZonesAfter(plan, plan.rules[..i], j),
          timeout := TimeoutAfter(plan, plan.rules[..i], j))
      invariant Kept(plan, plan.rules[..i], j)
    {
      var r := plan.rules[i];
      assert plan.rules[..i + 1] == plan.rules[..i] + [r];
      match r {
        case SuiteOnlyOn(suites, shapes) =>
          if MatchAny(plan, suites, j'.suite) && !MatchAny(plan, shapes, j'.shape) {
            return false, j';
          }
        case KeepOnly(shapes, suites) =>
          if MatchAny(plan, shapes, j'.shape) && !MatchAny(plan, suites, j'.suite) {
            return false, j';
          }
        case Drop(shapes, suites, images) =>
          if Allows(plan, shapes, j'.shape) && Allows(plan, suites, j'.suite) && Allows(plan, images, j'.baseImage) {
            return false, j';
          }
        case ZoneSet(shapes, suites, name) =>
          if MatchAny(plan, shapes, j'.shape) && Allows(plan, suites, j'.suite) {
            j' := j'.(zones := ZonesOf(plan, name));
          }
        case TimeoutFor(shapes, value) =>
          if MatchAny(plan, shapes, j'.shape) {
            j' := j'.(timeout := value);
          }
        case NoRule =>
      }
    }
    assert plan.rules[..|plan.rules|] == plan.rules;
    return true, j';
  }

  // What is kept depends on which rules there are, not on their order.
  lemma OrderOfRulesIsIrrelevant(plan: Plan, rules: seq<Rule>, others: seq<Rule>, j: Job)
    requires forall r :: r in rules <==> r in others
    ensures Kept(plan, rules, j) <==> Kept(plan, others, j)
  {
    forall i | 0 <= i < |rules| ensures rules[i] in others { assert rules[i] in rules; }
    forall i | 0 <= i < |others| ensures others[i] in rules { assert others[i] in others; }
    hide Drops;
  }

  // -------------------------------------------------------------- quarantine

  predicate Quarantines(plan: Plan, q: Quarantine, j: Job) {
    && (q.image == "" || MatchAny(plan, [q.image], j.baseImage))
    && (q.shape == "" || MatchAny(plan, [q.shape], j.shape))
    && (q.suite == "" || MatchAny(plan, [q.suite], j.suite))
  }

  function Reason(plan: Plan, entries: seq<Quarantine>, j: Job): string {
    if entries == [] then j.quarantined
    else if Quarantines(plan, entries[|entries| - 1], j) then entries[|entries| - 1].reason
    else Reason(plan, entries[..|entries| - 1], j)
  }

  // The last matching entry gives the reason.
  method ApplyQuarantine(plan: Plan, j: Job) returns (j': Job)
    ensures j' == j.(quarantined := Reason(plan, plan.quarantine, j))
  {
    hide MatchAny;
    j' := j;
    for i := 0 to |plan.quarantine|
      invariant j' == j.(quarantined := Reason(plan, plan.quarantine[..i], j))
    {
      var q := plan.quarantine[i];
      assert plan.quarantine[..i + 1][..i] == plan.quarantine[..i];
      if q.image != "" && !MatchAny(plan, [q.image], j'.baseImage) { continue; }
      if q.shape != "" && !MatchAny(plan, [q.shape], j'.shape) { continue; }
      if q.suite != "" && !MatchAny(plan, [q.suite], j'.suite) { continue; }
      j' := j'.(quarantined := q.reason);
    }
    assert plan.quarantine[..|plan.quarantine|] == plan.quarantine;
  }

  function Quarantined(plan: Plan, j: Job): Job {
    j.(quarantined := Reason(plan, plan.quarantine, j))
  }

  // ------------------------------------------------------------------- tiers

  predicate FullTier(tier: string) {
    tier == "" || tier == "all"
  }

  // The pinned zones of a shape in a tier; None when it is not part of it.
  function TierZones(plan: Plan, tier: string, shape: string): Option<Option<seq<string>>> {
    if FullTier(tier) then Some(None)
    else if tier in plan.tiers then FindShape(plan.tiers[tier], shape)
    else None
  }

  // The first entry for the shape.
  function FindShape(entries: seq<TierEntry>, shape: string): Option<Option<seq<string>>> {
    if entries == [] then None
    else if entries[0].shape == shape then Some(entries[0].zones)
    else FindShape(entries[1..], shape)
  }

  // --------------------------------------------------------------- expansion

  function LastPart(parts: seq<string>): string
    requires parts != []
  {
    parts[|parts| - 1]
  }

  function FullImage(prefix: string, img: string): (string, string) {
    if '/' in img then (img, LastPart(Split(img, '/'))) else (prefix + "/" + img, img)
  }

  // The position of the first dash, or the length when there is none.
  function FirstDash(s: string): (i: nat)
    ensures i <= |s|
  {
    if s == "" || s[0] == '-' then 0 else 1 + FirstDash(s[1..])
  }

  function ShapeSeries(shape: string): string {
    var i := FirstDash(shape);
    if 0 < i < |shape| then shape[..i] else shape
  }

  const NO_SHAPE := Shape("", 0, "", "", 0)
  const NO_SUITE := Suite(0, 0, 0, 0, 0)

  function BaseJob(plan: Plan, b: Block, shape: string, img: string, suite: string): Job {
    var sh := if shape in plan.shapes then plan.shapes[shape] else NO_SHAPE;
    var su := if suite in plan.suites then plan.suites[suite] else NO_SUITE;
    var (full, base) := FullImage(plan.imagePrefix, img);
    var vms := if su.vms < 1 then 1 else su.vms;
    Job(base + "_" + shape + "_" + suite, b.name, full, base, shape, suite, "", sh.arch, sh.cpus * vms, sh.family,
        ShapeSeries(shape), sh.maxParallel, su.networks, su.subnets, ZonesOf(plan, sh.zoneSet), su.timeout, su.est, "")
  }

  function ZonedJob(plan: Plan, j: Job, zone: string): Job {
    Quarantined(plan, j.(id := j.id + "_" + zone, zones := [zone]))
  }

  function ZonedJobs(plan: Plan, j: Job): seq<Job> {
    seq(|j.zones|, i requires 0 <= i < |j.zones| => ZonedJob(plan, j, j.zones[i]))
  }

  // The jobs of one combination: none, one, or one per zone.
  function JobsOf(plan: Plan, tier: string, b: Block, shape: string, img: string, suite: string): seq<Job> {
    var tiered := TierZones(plan, tier, shape);
    var j := BaseJob(plan, b, shape, img, suite);
    if tiered.None? || !Kept(plan, plan.rules, j) then []
    else
      var k := if tiered.value.Some? then Ruled(plan, j).(zones := tiered.value.value) else Ruled(plan, j);
      if b.eachZone then ZonedJobs(plan, k) else [Quarantined(plan, k)]
  }

  function Flatten(lists: seq<seq<Job>>): seq<Job> {
    if lists == [] then [] else Flatten(lists[..|lists| - 1]) + lists[|lists| - 1]
  }

  function OverSuites(plan: Plan, tier: string, b: Block, shape: string, img: string): seq<seq<Job>> {
    seq(|b.suites|, i requires 0 <= i < |b.suites| => JobsOf(plan, tier, b, shape, img, b.suites[i]))
  }

  function OverImages(plan: Plan, tier: string, b: Block, shape: string): seq<seq<Job>> {
    seq(|b.images|, i requires 0 <= i < |b.images| => Flatten(OverSuites(plan, tier, b, shape, b.images[i])))
  }

  function OverShapes(plan: Plan, tier: string, b: Block): seq<seq<Job>> {
    seq(|b.shapes|, i requires 0 <= i < |b.shapes| => Flatten(OverImages(plan, tier, b, b.shapes[i])))
  }

  function OverBlocks(plan: Plan, tier: string): seq<seq<Job>> {
    seq(|plan.blocks|, i requires 0 <= i < |plan.blocks| => Flatten(OverShapes(plan, tier, plan.blocks[i])))
  }

  const VALIDATION := "shapevalidation"

  function ValidationJob(plan: Plan, fam: Family, img: string): Job {
    var su := if VALIDATION in plan.suites then plan.suites[VALIDATION] else NO_SUITE;
    var (full, base) := FullImage(plan.imagePrefix, img);
    var zones := if fam.pinnedZone == "" then ZonesOf(plan, fam.zoneSet) else [fam.pinnedZone];
    Quarantined(plan, Job(base + "_" + fam.shape + "_shapevalidation", VALIDATION, full, base, fam.shape, VALIDATION,
      fam.name, fam.arch, fam.cpus, fam.family, ShapeSeries(fam.shape), 0, 0, 0, zones, su.timeout, su.est, ""))
  }

  function ValidationImages(plan: Plan, fam: Family): seq<string> {
    if fam.arch == "arm64" then plan.validation.armImages else plan.validation.images
  }

  function OverValidationImages(plan: Plan, fam: Family): seq<seq<Job>> {
    var images := ValidationImages(plan, fam);
    seq(|images|, i requires 0 <= i < |images| => [ValidationJob(plan, fam, images[i])])
  }

  function OverFamilies(plan: Plan): seq<seq<Job>> {
    var families := plan.validation.families;
    seq(|families|, i requires 0 <= i < |families| => Flatten(OverValidationImages(plan, families[i])))
  }

  // Every job of the matrix, whatever is asked for; a tier leaves out shapes,
  // and the shape validation altogether.
  function AllJobs(plan: Plan, tier: string): seq<Job> {
    Flatten(OverBlocks(plan, tier)) + (if FullTier(tier) then Flatten(OverFamilies(plan)) else [])
  }

  predicate Misconfigured(plan: Plan, tier: string) {
    plan.validation.families != [] && VALIDATION !in plan.suites && FullTier(tier)
  }

  function Admitted(plan: Plan, f: Filter, jobs: seq<Job>): seq<Job> {
    if jobs == [] then []
    else
      var front := Admitted(plan, f, jobs[..|jobs| - 1]);
      if Admits(plan, f, jobs[|jobs| - 1]) then front + [jobs[|jobs| - 1]] else front
  }

  // ------------------------------------------------------------ the expander

  class Expander {
    const plan: Plan
    const f: Filter
    var jobs: seq<Job>
    var seen: set<string>
    // Every job added so far, admitted or not.
    ghost var all: seq<Job>

    ghost predicate Valid()
      reads this
    {
      && Distinct(Ids(all)) && (forall id :: id in seen <==> id in Ids(all))
      && jobs == Admitted(plan, f, all)
    }

    constructor (plan: Plan, f: Filter)
      ensures Valid() && all == [] && this.plan == plan && this.f == f
    {
      this.plan, this.f, jobs, seen, all := plan, f, [], {}, [];
    }

    // A job whose id was seen before spoils the expansion.
    method Add(j: Job) returns (ok: bool)
      requires Valid()
      modifies this
      ensures ok ==> Valid() && all == old(all) + [j]
      ensures !ok ==> !Distinct(Ids(old(all) + [j]))
    {
      hide Admits;
      assert (all + [j])[..|all|] == all;
      if j.id in seen {
        RepeatedId(all, j);
        return false;
      }
      seen := seen + {j.id};
      if Admits(plan, f, j) {
        jobs := jobs + [j];
      }
      all := all + [j];
      return true;
    }

    method AddPerZone(j: Job) returns (ok: bool)
      requires Valid()
      modifies this
      ensures ok ==> Valid() && all == old(all) + ZonedJobs(plan, j)
      ensures !ok ==> !Distinct(Ids(old(all) + ZonedJobs(plan, j)))
    {
      hide Valid, Reason, Distinct, Ids;
      ghost var start, zoned := all, ZonedJobs(plan, j);
      for i := 0 to |j.zones|
        invariant Valid() && all == start + zoned[..i]
      {
        var zonedJob := ApplyQuarantine(plan, j.(id := j.id + "_" + j.zones[i], zones := [j.zones[i]]));
        assert start + zoned[..i] + [zonedJob] == start + zoned[..i + 1];
        ok := Add(zonedJob);
        if !ok {
          StaysSpoiled(start + zoned[..i + 1], zoned[i + 1..]);
          assert start + zoned[..i + 1] + zoned[i + 1..] == start + zoned;
          return false;
        }
      }
      assert zoned[..|j.zones|] == zoned;
      return true;
    }

    method AddCombination(b: Block, shape: string, img: string, suite: string) returns (ok: bool)
      requires Valid()
      modifies this
      ensures ok ==> Valid() && all == old(all) + JobsOf(plan, f.tier, b, shape, img, suite)
      ensures !ok ==> !Distinct(Ids(old(all) + JobsOf(plan, f.tier, b, shape, img, suite)))
    {
      hide Valid, Kept, ZonesAfter, TimeoutAfter, Reason, TierZones, BaseJob, Distinct, Ids;
      var tiered := TierZones(plan, f.tier, shape);
      if tiered.None? {
        return true;
      }
      var kept, j := KeepJob(plan, BaseJob(plan, b, shape, img, suite));
      if !kept {
        return true;
      }
      if tiered.value.Some? {
        j := j.(zones := tiered.value.value);
      }
      if b.eachZone {
        ok := AddPerZone(j);
        return;
      }
      j := ApplyQuarantine(plan, j);
      ok := Add(j);
    }

    method AddSuites(b: Block, shape: string, img: string) returns (ok: bool)
      requires Valid()
      modifies this
      ensures ok ==> Valid() && all == old(all) + Flatten(OverSuites(plan, f.tier, b, shape, img))
      ensures !ok ==> !Distinct(Ids(old(all) + Flatten(OverSuites(plan, f.tier, b, shape, img))))
    {
      hide Valid, JobsOf, Flatten, Distinct;
      ghost var start, lists := all, OverSuites(plan, f.tier, b, shape, img);
      NothingFlattened(start, lists);
      for i := 0 to |b.suites|
        invariant Valid() && all == start + Flatten(lists[..i])
      {
        FlattenStep(start, lists, i);
        ok := AddCombination(b, shape, img, b.suites[i]);
        if !ok { return; }
      }
      ok := true;
    }

    method AddImages(b: Block, shape: string) returns (ok: bool)
      requires Valid()
      modifies this
      ensures ok ==> Valid() && all == old(all) + Flatten(OverImages(plan, f.tier, b, shape))
      ensures !ok ==> !Distinct(Ids(old(all) + Flatten(OverImages(plan, f.tier, b, shape))))
    {
      hide Valid, OverSuites, Flatten, Distinct;
      ghost var start, lists := all, OverImages(plan, f.tier, b, shape);
      NothingFlattened(start, lists);
      for i := 0 to |b.images|
        invariant Valid() && all == start + Flatten(lists[..i])
      {
        FlattenStep(start, lists, i);
        ok := AddSuites(b, shape, b.images[i]);
        if !ok { return; }
      }
      ok := true;
    }

    method AddShapes(b: Block) returns (ok: bool)
      requires Valid()
      modifies this
      ensures ok ==> Valid() && all == old(all) + Flatten(OverShapes(plan, f.tier, b))
      ensures !ok ==> !Distinct(Ids(old(all) + Flatten(OverShapes(plan, f.tier, b))))
    {
      hide Valid, OverImages, Flatten, Distinct;
      ghost var start, lists := all, OverShapes(plan, f.tier, b);
      NothingFlattened(start, lists);
      for i := 0 to |b.shapes|
        invariant Valid() && all == start + Flatten(lists[..i])
      {
        FlattenStep(start, lists, i);
        ok := AddImages(b, b.shapes[i]);
        if !ok { return; }
      }
      ok := true;
    }

    method AddBlocks() returns (ok: bool)
      requires Valid()
      modifies this
      ensures ok ==> Valid() && all == old(all) + Flatten(OverBlocks(plan, f.tier))
      ensures !ok ==> !Distinct(Ids(old(all) + Flatten(OverBlocks(plan, f.tier))))
    {
      hide Valid, OverShapes, Flatten, Distinct;
      ghost var start, lists := all, OverBlocks(plan, f.tier);
      NothingFlattened(start, lists);
      for i := 0 to |plan.blocks|
        invariant Valid() && all == start + Flatten(lists[..i])
      {
        FlattenStep(start, lists, i);
        ok := AddShapes(plan.blocks[i]);
        if !ok { return; }
      }
      ok := true;
    }

    method AddFamily(fam: Family) returns (ok: bool)
      requires Valid()
      modifies this
      ensures ok ==> Valid() && all == old(all) + Flatten(OverValidationImages(plan, fam))
      ensures !ok ==> !Distinct(Ids(old(all) + Flatten(OverValidationImages(plan, fam))))
    {
      hide Valid, ValidationJob, Flatten, Distinct;
      ghost var start, lists := all, OverValidationImages(plan, fam);
      var images := ValidationImages(plan, fam);
      NothingFlattened(start, lists);
      for i := 0 to |images|
        invariant Valid() && all == start + Flatten(lists[..i])
      {
        FlattenStep(start, lists, i);
        ok := Add(ValidationJob(plan, fam, images[i]));
        if !ok { return; }
      }
      ok := true;
    }

    method AddFamilies() returns (ok: bool)
      requires Valid()
      modifies this
      ensures ok ==> Valid() && all == old(all) + Flatten(OverFamilies(plan))
      ensures !ok ==> !Distinct(Ids(old(all) + Flatten(OverFamilies(plan))))
    {
      hide Valid, OverValidationImages, Flatten, Distinct;
      ghost var start, lists := all, OverFamilies(plan);
      NothingFlattened(start, lists);
      for i := 0 to |plan.validation.families|
        invariant Valid() && all == start + Flatten(lists[..i])
      {
        FlattenStep(start, lists, i);
        ok := AddFamily(plan.validation.families[i]);
        if !ok { return; }
      }
      ok := true;
    }
  }

  ghost function Expanded(plan: Plan, f: Filter): Option<seq<Job>> {
    if Distinct(Ids(AllJobs(plan, f.tier))) && !Misconfigured(plan, f.tier)
    then Some(Admitted(plan, f, AllJobs(plan, f.tier)))
    else None
  }

  // Expansion succeeds exactly when all jobs of the matrix have distinct ids
  // and the shape validation has its suite; it returns the admitted ones in
  // order. The filter has no say in whether it succeeds.
  method ExpandJobs(plan: Plan, f: Filter) returns (r: Option<seq<Job>>)
    ensures r == Expanded(plan, f)
  {
    hide Flatten, Distinct, Admits, OverBlocks, OverFamilies;
    var e := new Expander(plan, f);
    ghost var matrix, validation := Flatten(OverBlocks(plan, f.tier)), Flatten(OverFamilies(plan));
    assert [] + matrix == matrix;
    var ok := e.AddBlocks();
    if !ok {
      StaysSpoiled(matrix, if FullTier(f.tier) then validation else []);
      return None;
    }
    if |plan.validation.families| > 0 && VALIDATION !in plan.suites && FullTier(f.tier) {
      return None;
    }
    if !FullTier(f.tier) {
      assert matrix + [] == matrix;
      return Some(e.jobs);
    }
    ok := e.AddFamilies();
    if !ok {
      return None;
    }
    return Some(e.jobs);
  }

  lemma NothingFlattened(start: seq<Job>, lists: seq<seq<Job>>)
    ensures start + Flatten(lists[..0]) == start
    ensures lists[..|lists|] == lists
  {
  }

  // Adding the next list to a prefix; if that repeats an id, so does the whole.
  lemma FlattenStep(start: seq<Job>, lists: seq<seq<Job>>, i: nat)
    requires i < |lists|
    ensures start + Flatten(lists[..i]) + lists[i] == start + Flatten(lists[..i + 1])
    ensures !Distinct(Ids(start + Flatten(lists[..i + 1]))) ==> !Distinct(Ids(start + Flatten(lists)))
  {
    hide Distinct;
    assert lists[..i + 1][..i] == lists[..i];
    FlattenPrefix(lists, i + 1);
    var rest :| Flatten(lists) == Flatten(lists[..i + 1]) + rest;
    assert start + Flatten(lists) == start + Flatten(lists[..i + 1]) + rest;
    if !Distinct(Ids(start + Flatten(lists[..i + 1]))) {
      StaysSpoiled(start + Flatten(lists[..i + 1]), rest);
    }
  }

  lemma {:induction false} FlattenPrefix(lists: seq<seq<Job>>, k: nat)
    requires k <= |lists|
    ensures exists rest :: Flatten(lists) == Flatten(lists[..k]) + rest
    decreases |lists|
  {
    if k == |lists| {
      assert lists[..k] == lists && Flatten(lists) == Flatten(lists[..k]) + [];
    } else {
      var n := |lists| - 1;
      FlattenPrefix(lists[..n], k);
      assert lists[..n][..k] == lists[..k];
      var rest :| Flatten(lists[..n]) == Flatten(lists[..k]) + rest;
      assert Flatten(lists) == Flatten(lists[..k]) + (rest + lists[n]);
    }
  }

  // --------------------------------------------------- expansion and filtering

  lemma {:induction false} EverythingIsAdmitted(plan: Plan, tier: string, jobs: seq<Job>)
    ensures Admitted(plan, EVERYTHING.(tier := tier), jobs) == jobs
  {
    if jobs != [] {
      EverythingIsAdmitted(plan, tier, jobs[..|jobs| - 1]);
    }
  }

  // Expanding with a filter succeeds exactly when expanding without does, and
  // gives the admitted jobs of that, in the same order, with distinct ids.
  lemma ExpansionCommutesWithFiltering(plan: Plan, f: Filter)
    requires FullTier(f.tier)
    ensures Expanded(plan, f).Some? <==> Expanded(plan, EVERYTHING).Some?
    ensures Expanded(plan, f).Some? ==>
      && Expanded(plan, f).value == Admitted(plan, f, Expanded(plan, EVERYTHING).value)
      && Distinct(Ids(Expanded(plan, f).value))
      && forall j :: j in Expanded(plan, f).value <==> j in Expanded(plan, EVERYTHING).value && Admits(plan, f, j)
  {
    hide AllJobs, Admits, Distinct, Ids, Admitted;
    FullTiersAgree(plan, f.tier);
    EverythingIsAdmitted(plan, "", AllJobs(plan, ""));
    if Expanded(plan, f).Some? {
      AdmittedIds(plan, f, AllJobs(plan, f.tier));
    }
  }

  lemma FullTiersAgree(plan: Plan, tier: string)
    requires FullTier(tier)
    ensures AllJobs(plan, tier) == AllJobs(plan, "")
  {
    hide JobsOf, Flatten, OverFamilies;
    forall b: Block, shape, img ensures OverSuites(plan, tier, b, shape, img) == OverSuites(plan, "", b, shape, img) {
      forall suite ensures JobsOf(plan, tier, b, shape, img, suite) == JobsOf(plan, "", b, shape, img, suite) {
        FullTiersAgreeOn(plan, tier, b, shape, img, suite);
      }
    }
    forall b: Block, shape ensures OverImages(plan, tier, b, shape) == OverImages(plan, "", b, shape) {}
    forall b: Block ensures OverShapes(plan, tier, b) == OverShapes(plan, "", b) {}
    assert OverBlocks(plan, tier) == OverBlocks(plan, "");
  }

  lemma FullTiersAgreeOn(plan: Plan, tier: string, b: Block, shape: string, img: string, suite: string)
    requires FullTier(tier)
    ensures JobsOf(plan, tier, b, shape, img, suite) == JobsOf(plan, "", b, shape, img, suite)
  {
    hide Kept, BaseJob, Ruled, ZonedJob, Quarantined;
  }

  lemma {:induction false} AdmittedIds(plan: Plan, f: Filter, jobs: seq<Job>)
    requires Distinct(Ids(jobs))
    ensures Distinct(Ids(Admitted(plan, f, jobs)))
    ensures forall j :: j in Admitted(plan, f, jobs) <==> j in jobs && Admits(plan, f, j)
    ensures forall id :: id in Ids(Admitted(plan, f, jobs)) ==> id in Ids(jobs)
  {
    hide Admits;
    if jobs != [] {
      var n := |jobs| - 1;
      DistinctIdsStep(jobs);
      AdmittedIds(plan, f, jobs[..n]);
      assert jobs == jobs[..n] + [jobs[n]];
      var front := Admitted(plan, f, jobs[..n]);
      assert (front + [jobs[n]])[..|front|] == front;
      assert Ids(front + [jobs[n]]) == Ids(front) + [jobs[n].id];
    }
  }

  lemma DistinctIdsStep(jobs: seq<Job>)
    requires jobs != [] && Distinct(Ids(jobs))
    ensures Distinct(Ids(jobs[..|jobs| - 1])) && jobs[|jobs| - 1].id !in Ids(jobs[..|jobs| - 1])
  {
    DistinctFront(Ids(jobs[..|jobs| - 1]), jobs[|jobs| - 1].id);
  }

  lemma DistinctFront(s: seq<string>, x: string)
    requires Distinct(s + [x])
    ensures Distinct(s) && x !in s
  {
    var t := s + [x];
    assert forall i :: 0 <= i < |s| ==> t[i] == s[i];
    assert t[|s|] == x;
  }

  lemma RepeatedId(jobs: seq<Job>, j: Job)
    requires j.id in Ids(jobs)
    ensures !Distinct(Ids(jobs + [j]))
  {
    assert (jobs + [j])[..|jobs|] == jobs;
    var k :| 0 <= k < |Ids(jobs)| && Ids(jobs)[k] == j.id;
    var ids := Ids(jobs + [j]);
    assert ids[k] == ids[|ids| - 1] && k < |ids| - 1;
  }

  lemma {:induction false} IdsAppend(a: seq<Job>, b: seq<Job>)
    ensures Ids(a + b) == Ids(a) + Ids(b)
  {
    if b == [] {
      assert a + b == a;
    } else {
      var n := |b| - 1;
      assert (a + b)[..|a| + n] == a + b[..n];
      IdsAppend(a, b[..n]);
    }
  }

  // A spoiled list stays spoiled.
  lemma StaysSpoiled(a: seq<Job>, b: seq<Job>)
    requires !Distinct(Ids(a))
    ensures !Distinct(Ids(a + b))
  {
    IdsAppend(a, b);
    var i, j :| 0 <= i < j < |Ids(a)| && Ids(a)[i] == Ids(a)[j];
    assert Ids(a + b)[i] == Ids(a + b)[j];
  }
}
