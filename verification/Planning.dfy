// Which jobs a plan makes, and what each of them carries.
module Planning {
  import opened Options
  import opened Names
  import opened Jobs
  import opened Text
  import Placement
  import opened Matrix

  // ------------------------------------------------------------ patterns, rules

  ghost predicate Named(plan: Plan, globs: seq<string>, name: string) {
    exists g :: g in globs && (g == name || plan.glob(g, name))
  }

  ghost predicate NamedOrAny(plan: Plan, globs: seq<string>, name: string) {
    globs == [] || Named(plan, globs, name)
  }

  lemma Patterns(plan: Plan, globs: seq<string>, name: string)
    ensures MatchAny(plan, globs, name) <==> Named(plan, globs, name)
    ensures Allows(plan, globs, name) <==> NamedOrAny(plan, globs, name)
  {
    if g :| g in globs && (g == name || plan.glob(g, name)) {
      var i :| 0 <= i < |globs| && globs[i] == g;
    }
  }

  lemma AllPatterns(plan: Plan)
    ensures forall globs, name :: MatchAny(plan, globs, name) <==> Named(plan, globs, name)
    ensures forall globs, name :: Allows(plan, globs, name) <==> NamedOrAny(plan, globs, name)
  {
    hide MatchAny, Allows, Named, NamedOrAny;
    forall globs, name ensures MatchAny(plan, globs, name) <==> Named(plan, globs, name) {
      Patterns(plan, globs, name);
    }
    forall globs, name ensures Allows(plan, globs, name) <==> NamedOrAny(plan, globs, name) {
      Patterns(plan, globs, name);
    }
  }

  // A combination survives the rules when its suite may use the shape, its
  // shape may run the suite, and no drop rule covers all of it.
  ghost predicate Survives(plan: Plan, shape: string, suite: string, image: string) {
    && (forall suites, shapes :: SuiteOnlyOn(suites, shapes) in plan.rules && Named(plan, suites, suite) ==>
          Named(plan, shapes, shape))
    && (forall shapes, suites :: KeepOnly(shapes, suites) in plan.rules && Named(plan, shapes, shape) ==>
          Named(plan, suites, suite))
    && (forall shapes, suites, images :: Drop(shapes, suites, images) in plan.rules ==>
          || !NamedOrAny(plan, shapes, shape) || !NamedOrAny(plan, suites, suite)
          || !NamedOrAny(plan, images, image))
  }

  lemma KeptJobsSurvive(plan: Plan, j: Job)
    ensures Kept(plan, plan.rules, j) <==> Survives(plan, j.shape, j.suite, j.baseImage)
  {
    hide MatchAny, Allows, Named, NamedOrAny;
    AllPatterns(plan);
    if Kept(plan, plan.rules, j) {
      forall r | r in plan.rules ensures !Drops(plan, r, j.suite, j.shape, j.baseImage) {
        var i :| 0 <= i < |plan.rules| && plan.rules[i] == r;
      }
    }
    if Survives(plan, j.shape, j.suite, j.baseImage) {
      forall i | 0 <= i < |plan.rules| ensures !Drops(plan, plan.rules[i], j.suite, j.shape, j.baseImage) {
        assert plan.rules[i] in plan.rules;
      }
    }
  }

  ghost predicate MovesZones(plan: Plan, r: Rule, shape: string, suite: string) {
    r.ZoneSet? && Named(plan, r.shapes, shape) && NamedOrAny(plan, r.suites, suite)
  }

  ghost predicate MovesTimeout(plan: Plan, r: Rule, shape: string) {
    r.TimeoutFor? && Named(plan, r.shapes, shape)
  }

  // The zones a combination runs in: those of the last rule that names a zone
  // set for it, or else those of its shape.
  ghost predicate RuledZones(plan: Plan, own: seq<string>, shape: string, suite: string, zones: seq<string>) {
    var rules := plan.rules;
    || (zones == own && forall i :: 0 <= i < |rules| ==> !MovesZones(plan, rules[i], shape, suite))
    || (exists i :: 0 <= i < |rules| && MovesZones(plan, rules[i], shape, suite)
          && zones == (if rules[i].name in plan.zoneSets then plan.zoneSets[rules[i].name] else [])
          && forall k :: i < k < |rules| ==> !MovesZones(plan, rules[k], shape, suite))
  }

  ghost predicate RuledTimeout(plan: Plan, own: int, shape: string, timeout: int) {
    var rules := plan.rules;
    || (timeout == own && forall i :: 0 <= i < |rules| ==> !MovesTimeout(plan, rules[i], shape))
    || (exists i :: 0 <= i < |rules| && MovesTimeout(plan, rules[i], shape) && timeout == rules[i].value
          && forall k :: i < k < |rules| ==> !MovesTimeout(plan, rules[k], shape))
  }

  lemma RuledAsStated(plan: Plan, j: Job)
    ensures Ruled(plan, j) == j.(zones := Ruled(plan, j).zones, timeout := Ruled(plan, j).timeout)
    ensures forall zones :: RuledZones(plan, j.zones, j.shape, j.suite, zones) <==> zones == Ruled(plan, j).zones
    ensures forall timeout :: RuledTimeout(plan, j.timeout, j.shape, timeout) <==> timeout == Ruled(plan, j).timeout
  {
    hide MatchAny, Allows, Named, NamedOrAny;
    AllPatterns(plan);
    LastRuleWins(plan, plan.rules, j);
    assert forall i :: 0 <= i < |plan.rules| ==>
      (SetsZones(plan, plan.rules[i], j) <==> MovesZones(plan, plan.rules[i], j.shape, j.suite));
    assert forall i :: 0 <= i < |plan.rules| ==>
      (SetsTimeout(plan, plan.rules[i], j) <==> MovesTimeout(plan, plan.rules[i], j.shape));
    assert RuledZones(plan, j.zones, j.shape, j.suite, Ruled(plan, j).zones);
    assert RuledTimeout(plan, j.timeout, j.shape, Ruled(plan, j).timeout);
  }

  // ------------------------------------------------------- quarantine and tier

  ghost predicate Covers(plan: Plan, q: Quarantine, j: Job) {
    && (q.image == "" || q.image == j.baseImage || plan.glob(q.image, j.baseImage))
    && (q.shape == "" || q.shape == j.shape || plan.glob(q.shape, j.shape))
    && (q.suite == "" || q.suite == j.suite || plan.glob(q.suite, j.suite))
  }

  // The reason is that of the last quarantine entry that covers the job.
  ghost predicate RightReason(plan: Plan, entries: seq<Quarantine>, j: Job, reason: string) {
    || (reason == "" && forall i :: 0 <= i < |entries| ==> !Covers(plan, entries[i], j))
    || (exists i :: 0 <= i < |entries| && Covers(plan, entries[i], j) && reason == entries[i].reason
          && forall k :: i < k < |entries| ==> !Covers(plan, entries[k], j))
  }

  lemma {:induction false} ReasonOfLast(plan: Plan, entries: seq<Quarantine>, j: Job)
    requires j.quarantined == ""
    ensures RightReason(plan, entries, j, Reason(plan, entries, j))
  {
    hide Covers, Quarantines;
    if entries != [] {
      var n := |entries| - 1;
      CoversIsQuarantines(plan, entries[n], j);
      ReasonOfLast(plan, entries[..n], j);
      assert forall i :: 0 <= i < n ==> entries[..n][i] == entries[i];
    }
  }

  lemma CoversIsQuarantines(plan: Plan, q: Quarantine, j: Job)
    ensures Covers(plan, q, j) <==> Quarantines(plan, q, j)
  {
    hide MatchAny;
    forall g: string, name ensures MatchAny(plan, [g], name) <==> g == name || plan.glob(g, name) {
      Patterns(plan, [g], name);
      if g == name || plan.glob(g, name) { assert g in [g]; }
    }
  }

  // Among the jobs that differ in the reason only, quarantining picks the one
  // with the right reason.
  lemma QuarantinedIsRight(plan: Plan, j: Job, k: Job)
    requires j.quarantined == ""
    ensures k == Matrix.Quarantined(plan, j)
      <==> k == j.(quarantined := k.quarantined) && RightReason(plan, plan.quarantine, k, k.quarantined)
  {
    hide Reason;
    var entries := plan.quarantine;
    ReasonOfLast(plan, entries, j);
    if k == j.(quarantined := k.quarantined) {
      forall i | 0 <= i < |entries| ensures Covers(plan, entries[i], k) <==> Covers(plan, entries[i], j) {}
    }
  }

  ghost predicate FirstEntry(entries: seq<TierEntry>, shape: string, pinned: Option<seq<string>>) {
    exists i :: 0 <= i < |entries| && entries[i] == TierEntry(shape, pinned)
      && forall k :: 0 <= k < i ==> entries[k].shape != shape
  }

  // The full tier takes every shape; another one those it lists, and the first
  // entry of a shape may pin its zones.
  ghost predicate InTier(plan: Plan, tier: string, shape: string, pinned: Option<seq<string>>) {
    if tier == "" || tier == "all" then pinned == None
    else tier in plan.tiers && FirstEntry(plan.tiers[tier], shape, pinned)
  }

  lemma {:induction false} FoundIsFirst(entries: seq<TierEntry>, shape: string, pinned: Option<seq<string>>)
    ensures FindShape(entries, shape) == Some(pinned) <==> FirstEntry(entries, shape, pinned)
  {
    if entries != [] && entries[0].shape != shape {
      FoundIsFirst(entries[1..], shape, pinned);
      assert forall i :: 0 < i < |entries| ==> entries[i] == entries[1..][i - 1];
      if FirstEntry(entries, shape, pinned) {
        var i :| 0 <= i < |entries| && entries[i] == TierEntry(shape, pinned)
          && forall k :: 0 <= k < i ==> entries[k].shape != shape;
        assert entries[1..][i - 1] == TierEntry(shape, pinned);
        assert forall k :: 0 <= k < i - 1 ==> entries[1..][k] == entries[k + 1];
      }
      if FirstEntry(entries[1..], shape, pinned) {
        var i :| 0 <= i < |entries| - 1 && entries[1..][i] == TierEntry(shape, pinned)
          && forall k :: 0 <= k < i ==> entries[1..][k].shape != shape;
        assert entries[i + 1] == TierEntry(shape, pinned);
      }
    } else if entries != [] {
      assert entries[0].shape == shape;
    }
  }

  lemma TierAsStated(plan: Plan, tier: string, shape: string, pinned: Option<seq<string>>)
    ensures InTier(plan, tier, shape, pinned) <==> TierZones(plan, tier, shape) == Some(pinned)
  {
    if !FullTier(tier) && tier in plan.tiers {
      FoundIsFirst(plan.tiers[tier], shape, pinned);
    }
  }

  // --------------------------------------------------------------- the images

  // A path stands for itself and is known by its last part; a bare name is
  // looked up below the prefix.
  ghost predicate ImageOf(prefix: string, img: string, full: string, base: string) {
    && '/' !in base
    && (if '/' in img then full == img && exists dir :: img == dir + "/" + base
        else base == img && full == prefix + "/" + img)
  }

  lemma {:induction false} LastOfSplit(s: string, sep: char)
    ensures var last := LastPart(Split(s, sep));
      sep !in last && (if sep in s then exists front :: s == front + [sep] + last else last == s)
  {
    if s != "" {
      var n := |s| - 1;
      LastOfSplit(s[..n], sep);
      assert s == s[..n] + [s[n]];
      var last := LastPart(Split(s[..n], sep));
      if s[n] == sep {
        assert s == s[..n] + [sep] + "";
      } else if sep in s[..n] {
        var front :| s[..n] == front + [sep] + last;
        assert s == front + [sep] + (last + [s[n]]);
      }
    }
  }

  // No separator stands behind the last one.
  lemma BehindLast(a: string, b: string, sep: char, i: nat)
    requires sep !in b && i < |a| + 1 + |b| && (a + [sep] + b)[i] == sep
    ensures i <= |a|
  {
  }

  lemma TailAfterLast(a: string, b: string, c: string, d: string, sep: char)
    requires a + [sep] + b == c + [sep] + d && sep !in b && sep !in d
    ensures b == d
  {
    var s := a + [sep] + b;
    assert s[|a|] == sep && (c + [sep] + d)[|c|] == sep;
    BehindLast(a, b, sep, |c|);
    BehindLast(c, d, sep, |a|);
    assert b == s[|a| + 1..] && d == (c + [sep] + d)[|a| + 1..];
  }

  lemma ImageAsStated(prefix: string, img: string, full: string, base: string)
    ensures ImageOf(prefix, img, full, base) <==> (full, base) == FullImage(prefix, img)
  {
    LastOfSplit(img, '/');
    var last := LastPart(Split(img, '/'));
    if '/' in img && ImageOf(prefix, img, full, base) {
      var dir :| img == dir + "/" + base;
      var front :| img == front + ['/'] + last;
      TailAfterLast(dir, base, front, last, '/');
    }
  }

  // The series is the text before the first dash; a shape that has no dash, or
  // starts with one, is its own series.
  ghost predicate SeriesOf(shape: string, series: string) {
    if '-' in shape && shape[0] != '-' then '-' !in series && series + "-" <= shape else series == shape
  }

  lemma {:induction false} DashPosition(s: string)
    ensures '-' !in s[..FirstDash(s)] && (FirstDash(s) < |s| ==> s[FirstDash(s)] == '-')
    ensures '-' in s <==> FirstDash(s) < |s|
  {
    if s != "" && s[0] != '-' {
      DashPosition(s[1..]);
      var i := FirstDash(s[1..]);
      assert s[..1 + i] == [s[0]] + s[1..][..i];
      assert s == [s[0]] + s[1..];
    }
  }

  lemma SeriesAsStated(shape: string, series: string)
    ensures SeriesOf(shape, series) <==> series == ShapeSeries(shape)
  {
    DashPosition(shape);
    var i := FirstDash(shape);
    if '-' in shape && shape[0] != '-' {
      if SeriesOf(shape, series) {
        assert shape[|series|] == '-' && series == shape[..|series|];
        assert |series| >= i;
        assert forall k :: 0 <= k < |series| ==> series[k] == shape[k] && series[k] != '-';
      }
      assert shape[..i] + "-" == shape[..i + 1];
    }
  }

  // ----------------------------------------------------------- planned jobs

  // It takes the processors of all its machines, charges the family of its
  // shape, and has the limits of shape and suite.
  ghost predicate Carries(plan: Plan, b: Block, shape: string, img: string, suite: string, j: Job) {
    var sh := if shape in plan.shapes then plan.shapes[shape] else Shape("", 0, "", "", 0);
    var su := if suite in plan.suites then plan.suites[suite] else Suite(0, 0, 0, 0, 0);
    && j.config == b.name && j.shape == shape && j.suite == suite && j.family == ""
    && ImageOf(plan.imagePrefix, img, j.image, j.baseImage) && SeriesOf(shape, j.series)
    && j.cpuCost == (if su.vms > 1 then su.vms * sh.cpus else sh.cpus)
    && j.budgetKey == sh.family && j.arch == sh.arch && j.maxParallel == sh.maxParallel
    && j.networks == su.networks && j.subnets == su.subnets && j.est == su.est
  }

  // A job of the matrix: of one block, shape, image and suite that survive the
  // rules, with zones, timeout and quarantine reason as they say.
  ghost predicate OfMatrix(plan: Plan, tier: string, b: Block, shape: string, img: string, suite: string, j: Job) {
    var own := if shape in plan.shapes then plan.shapes[shape].zoneSet else "";
    var timeout := if suite in plan.suites then plan.suites[suite].timeout else 0;
    && Carries(plan, b, shape, img, suite, j)
    && Survives(plan, shape, suite, j.baseImage) && RuledTimeout(plan, timeout, shape, j.timeout)
    && RightReason(plan, plan.quarantine, j, j.quarantined)
    && exists pinned, ruled :: InZones(plan, tier, b, own, j, pinned, ruled)
  }

  // The zones the tier pins for the shape, else those the rules leave it.
  ghost predicate InZones(
      plan: Plan, tier: string, b: Block, own: string, j: Job, pinned: Option<seq<string>>, ruled: seq<string>) {
    && InTier(plan, tier, j.shape, pinned)
    && RuledZones(plan, if own in plan.zoneSets then plan.zoneSets[own] else [], j.shape, j.suite, ruled)
    && PlacedIn(b, j.baseImage + "_" + j.shape + "_" + j.suite, if pinned.Some? then pinned.value else ruled, j)
  }

  // In all the zones, or in one of them when the block wants a job for each.
  ghost predicate PlacedIn(b: Block, name: string, zones: seq<string>, j: Job) {
    if b.eachZone then exists zone :: zone in zones && j.zones == [zone] && j.id == name + "_" + zone
    else j.zones == zones && j.id == name
  }

  // A job of the shape validation: of one family and one image for its
  // architecture, with the family's own cost and no limits.
  ghost predicate OfValidation(plan: Plan, fam: Family, img: string, j: Job) {
    var su := if "shapevalidation" in plan.suites then plan.suites["shapevalidation"] else Suite(0, 0, 0, 0, 0);
    && j.config == "shapevalidation" && j.shape == fam.shape && j.suite == "shapevalidation"
    && j.family == fam.name && ImageOf(plan.imagePrefix, img, j.image, j.baseImage) && SeriesOf(fam.shape, j.series)
    && j.cpuCost == fam.cpus && j.budgetKey == fam.family && j.arch == fam.arch
    && j.maxParallel == 0 && j.networks == 0 && j.subnets == 0 && j.timeout == su.timeout && j.est == su.est
    && j.id == j.baseImage + "_" + fam.shape + "_shapevalidation"
    && j.zones == (if fam.pinnedZone != "" then [fam.pinnedZone]
                   else if fam.zoneSet in plan.zoneSets then plan.zoneSets[fam.zoneSet] else [])
    && RightReason(plan, plan.quarantine, j, j.quarantined)
  }

  // ---------------------------------------------------- one combination's jobs

  lemma CarriesTheSame(plan: Plan, b: Block, shape: string, img: string, suite: string, j: Job)
    ensures Carries(plan, b, shape, img, suite, j)
      <==> j == BaseJob(plan, b, shape, img, suite).(
        id := j.id, zones := j.zones, timeout := j.timeout, quarantined := j.quarantined)
  {
    hide FullImage, ShapeSeries, ImageOf, SeriesOf;
    ImageAsStated(plan.imagePrefix, img, j.image, j.baseImage);
    SeriesAsStated(shape, j.series);
  }

  lemma BaseJobStarts(plan: Plan, b: Block, shape: string, img: string, suite: string)
    ensures var j := BaseJob(plan, b, shape, img, suite);
      var own := if shape in plan.shapes then plan.shapes[shape].zoneSet else "";
      && j.shape == shape && j.suite == suite && j.quarantined == ""
      && j.id == j.baseImage + "_" + shape + "_" + suite
      && j.zones == (if own in plan.zoneSets then plan.zoneSets[own] else [])
      && j.timeout == if suite in plan.suites then plan.suites[suite].timeout else 0
  {
    hide FullImage, ShapeSeries;
  }

  function PlacedJobs(plan: Plan, b: Block, k: Job): seq<Job> {
    if b.eachZone then ZonedJobs(plan, k) else [Matrix.Quarantined(plan, k)]
  }

  lemma PlacedAsStated(plan: Plan, b: Block, k: Job, j: Job)
    requires k.quarantined == ""
    ensures j in PlacedJobs(plan, b, k)
      <==> && PlacedIn(b, k.id, k.zones, j) && RightReason(plan, plan.quarantine, j, j.quarantined)
           && j == k.(id := j.id, zones := j.zones, quarantined := j.quarantined)
  {
    hide Matrix.Quarantined, RightReason;
    if b.eachZone {
      if i :| 0 <= i < |k.zones| && j == ZonedJob(plan, k, k.zones[i]) {
        QuarantinedIsRight(plan, k.(id := k.id + "_" + k.zones[i], zones := [k.zones[i]]), j);
      }
      if zone :| zone in k.zones && j.zones == [zone] && j.id == k.id + "_" + zone {
        QuarantinedIsRight(plan, k.(id := k.id + "_" + zone, zones := [zone]), j);
        var i :| 0 <= i < |k.zones| && k.zones[i] == zone;
        if j == ZonedJob(plan, k, zone) { assert ZonedJobs(plan, k)[i] == j; }
      }
    } else {
      QuarantinedIsRight(plan, k, j);
    }
  }

  // The jobs of a combination are those that carry what it says.
  lemma JobsOfCombination(plan: Plan, tier: string, b: Block, shape: string, img: string, suite: string, j: Job)
    ensures j in JobsOf(plan, tier, b, shape, img, suite) <==> OfMatrix(plan, tier, b, shape, img, suite, j)
  {
    hide Carries, Ruled, Kept, TierZones, Survives, InTier, RuledZones, RuledTimeout, RightReason, PlacedIn, PlacedJobs;
    var base := BaseJob(plan, b, shape, img, suite);
    BaseJobStarts(plan, b, shape, img, suite);
    CarriesTheSame(plan, b, shape, img, suite, j);
    KeptJobsSurvive(plan, base);
    RuledAsStated(plan, base);
    hide BaseJob;
    forall pinned ensures InTier(plan, tier, shape, pinned) <==> TierZones(plan, tier, shape) == Some(pinned) {
      TierAsStated(plan, tier, shape, pinned);
    }
    var tiered := TierZones(plan, tier, shape);
    if tiered.Some? {
      var k := Ruled(plan, base).(
        zones := if tiered.value.Some? then tiered.value.value else Ruled(plan, base).zones);
      PlacedAsStated(plan, b, k, j);
      JobsOfIsPlaced(plan, tier, b, shape, img, suite, k);
      if OfMatrix(plan, tier, b, shape, img, suite, j) {}
      if j in PlacedJobs(plan, b, k) && Kept(plan, plan.rules, base) {
        assert InZones(plan, tier, b, if shape in plan.shapes then plan.shapes[shape].zoneSet else "", j,
          tiered.value, Ruled(plan, base).zones);
      }
    }
  }

  lemma JobsOfIsPlaced(plan: Plan, tier: string, b: Block, shape: string, img: string, suite: string, k: Job)
    requires var tiered := TierZones(plan, tier, shape);
      var ruled := Ruled(plan, BaseJob(plan, b, shape, img, suite));
      tiered.Some? && k == ruled.(zones := if tiered.value.Some? then tiered.value.value else ruled.zones)
    ensures JobsOf(plan, tier, b, shape, img, suite)
      == if Kept(plan, plan.rules, BaseJob(plan, b, shape, img, suite)) then PlacedJobs(plan, b, k) else []
  {
    hide BaseJob, Kept, ZonesAfter, TimeoutAfter;
  }

  lemma ValidationJobAsStated(plan: Plan, fam: Family, img: string, j: Job)
    ensures j == ValidationJob(plan, fam, img) <==> OfValidation(plan, fam, img, j)
  {
    hide FullImage, ShapeSeries, ImageOf, SeriesOf, Reason, RightReason;
    ImageAsStated(plan.imagePrefix, img, j.image, j.baseImage);
    SeriesAsStated(fam.shape, j.series);
    var full, base := FullImage(plan.imagePrefix, img).0, FullImage(plan.imagePrefix, img).1;
    var su := if "shapevalidation" in plan.suites then plan.suites["shapevalidation"] else Suite(0, 0, 0, 0, 0);
    var zones := if fam.pinnedZone != "" then [fam.pinnedZone] else ZonesOf(plan, fam.zoneSet);
    QuarantinedIsRight(plan, Job(base + "_" + fam.shape + "_shapevalidation", "shapevalidation", full, base, fam.shape,
      "shapevalidation", fam.name, fam.arch, fam.cpus, fam.family, ShapeSeries(fam.shape), 0, 0, 0, zones, su.timeout,
      su.est, ""), j);
  }

  // ------------------------------------------------------------ the whole plan

  lemma {:induction false} InFlat(lists: seq<seq<Job>>, j: Job)
    ensures j in Flatten(lists) <==> exists i :: 0 <= i < |lists| && j in lists[i]
  {
    if lists != [] {
      var n := |lists| - 1;
      InFlat(lists[..n], j);
      assert forall i :: 0 <= i < n ==> lists[..n][i] == lists[i];
    }
  }

  // A combination of the matrix.
  ghost predicate Combined(b: Block, shape: string, img: string, suite: string) {
    shape in b.shapes && img in b.images && suite in b.suites
  }

  lemma JobsOfSuites(plan: Plan, tier: string, b: Block, shape: string, img: string, j: Job)
    ensures j in Flatten(OverSuites(plan, tier, b, shape, img))
      <==> exists suite :: suite in b.suites && OfMatrix(plan, tier, b, shape, img, suite, j)
  {
    hide Flatten, JobsOf, OfMatrix;
    InFlat(OverSuites(plan, tier, b, shape, img), j);
    forall suite
      ensures j in JobsOf(plan, tier, b, shape, img, suite) <==> OfMatrix(plan, tier, b, shape, img, suite, j)
    {
      JobsOfCombination(plan, tier, b, shape, img, suite, j);
    }
    if suite :| suite in b.suites && OfMatrix(plan, tier, b, shape, img, suite, j) {
      var i :| 0 <= i < |b.suites| && b.suites[i] == suite;
      assert j in OverSuites(plan, tier, b, shape, img)[i];
    }
  }

  lemma JobsOfImages(plan: Plan, tier: string, b: Block, shape: string, j: Job)
    ensures j in Flatten(OverImages(plan, tier, b, shape))
      <==> exists img, suite :: img in b.images && suite in b.suites && OfMatrix(plan, tier, b, shape, img, suite, j)
  {
    hide Flatten, OverSuites, OfMatrix;
    InFlat(OverImages(plan, tier, b, shape), j);
    forall img
      ensures j in Flatten(OverSuites(plan, tier, b, shape, img))
        <==> exists suite :: suite in b.suites && OfMatrix(plan, tier, b, shape, img, suite, j)
    {
      JobsOfSuites(plan, tier, b, shape, img, j);
    }
    if img, suite :| img in b.images && suite in b.suites && OfMatrix(plan, tier, b, shape, img, suite, j) {
      var i :| 0 <= i < |b.images| && b.images[i] == img;
      assert j in OverImages(plan, tier, b, shape)[i];
    }
  }

  lemma JobsOfBlock(plan: Plan, tier: string, b: Block, j: Job)
    ensures j in Flatten(OverShapes(plan, tier, b))
      <==> exists shape, img, suite :: Combined(b, shape, img, suite) && OfMatrix(plan, tier, b, shape, img, suite, j)
  {
    hide Flatten, OverImages, OfMatrix;
    InFlat(OverShapes(plan, tier, b), j);
    forall shape
      ensures j in Flatten(OverImages(plan, tier, b, shape))
        <==> exists img, suite :: img in b.images && suite in b.suites && OfMatrix(plan, tier, b, shape, img, suite, j)
    {
      JobsOfImages(plan, tier, b, shape, j);
    }
    if shape, img, suite :| Combined(b, shape, img, suite) && OfMatrix(plan, tier, b, shape, img, suite, j) {
      var i :| 0 <= i < |b.shapes| && b.shapes[i] == shape;
      assert j in OverShapes(plan, tier, b)[i];
    }
  }

  lemma JobsOfBlocks(plan: Plan, tier: string, j: Job)
    ensures j in Flatten(OverBlocks(plan, tier)) <==> InMatrix(plan, tier, j)
  {
    hide Flatten, OverShapes, OfMatrix;
    InFlat(OverBlocks(plan, tier), j);
    forall b
      ensures j in Flatten(OverShapes(plan, tier, b))
        <==> exists shape, img, suite :: Combined(b, shape, img, suite) && OfMatrix(plan, tier, b, shape, img, suite, j)
    {
      JobsOfBlock(plan, tier, b, j);
    }
    if b, shape, img, suite :|
      b in plan.blocks && Combined(b, shape, img, suite) && OfMatrix(plan, tier, b, shape, img, suite, j)
    {
      var i :| 0 <= i < |plan.blocks| && plan.blocks[i] == b;
      assert j in OverBlocks(plan, tier)[i];
    }
  }

  lemma JobsOfFamily(plan: Plan, fam: Family, j: Job)
    ensures j in Flatten(OverValidationImages(plan, fam))
      <==> exists img ::
             img in (if fam.arch == "arm64" then plan.validation.armImages else plan.validation.images)
             && OfValidation(plan, fam, img, j)
  {
    hide Flatten, ValidationJob, OfValidation;
    var images := if fam.arch == "arm64" then plan.validation.armImages else plan.validation.images;
    InFlat(OverValidationImages(plan, fam), j);
    forall img ensures j == ValidationJob(plan, fam, img) <==> OfValidation(plan, fam, img, j) {
      ValidationJobAsStated(plan, fam, img, j);
    }
    if img :| img in images && OfValidation(plan, fam, img, j) {
      var i :| 0 <= i < |images| && images[i] == img;
      assert j in OverValidationImages(plan, fam)[i];
    }
  }

  lemma JobsOfFamilies(plan: Plan, j: Job)
    ensures j in Flatten(OverFamilies(plan)) <==> InValidation(plan, j)
  {
    hide Flatten, OverValidationImages, OfValidation;
    InFlat(OverFamilies(plan), j);
    forall fam
      ensures j in Flatten(OverValidationImages(plan, fam))
        <==> exists img ::
               img in (if fam.arch == "arm64" then plan.validation.armImages else plan.validation.images)
               && OfValidation(plan, fam, img, j)
    {
      JobsOfFamily(plan, fam, j);
    }
    if fam, img :|
      && fam in plan.validation.families
      && img in (if fam.arch == "arm64" then plan.validation.armImages else plan.validation.images)
      && OfValidation(plan, fam, img, j)
    {
      var i :| 0 <= i < |plan.validation.families| && plan.validation.families[i] == fam;
      assert j in OverFamilies(plan)[i];
    }
  }

  ghost predicate InMatrix(plan: Plan, tier: string, j: Job) {
    exists b, shape, img, suite ::
      b in plan.blocks && Combined(b, shape, img, suite) && OfMatrix(plan, tier, b, shape, img, suite, j)
  }

  // The shape validation takes other images on ARM.
  ghost predicate InValidation(plan: Plan, j: Job) {
    exists fam, img ::
      && fam in plan.validation.families
      && img in (if fam.arch == "arm64" then plan.validation.armImages else plan.validation.images)
      && OfValidation(plan, fam, img, j)
  }

  ghost predicate Wanted(plan: Plan, f: Filter, j: Job) {
    && NamedOrAny(plan, f.configs, j.config) && NamedOrAny(plan, f.images, j.baseImage)
    && NamedOrAny(plan, f.shapes, j.shape) && NamedOrAny(plan, f.suites, j.suite)
  }

  // An expansion holds the wanted jobs of the matrix and, in the full tier, of
  // the shape validation: all of them, and no others.
  lemma PlannedJobs(plan: Plan, f: Filter, j: Job)
    requires Expanded(plan, f).Some?
    ensures j in Expanded(plan, f).value
      <==> && Wanted(plan, f, j)
           && (InMatrix(plan, f.tier, j) || ((f.tier == "" || f.tier == "all") && InValidation(plan, j)))
  {
    hide Flatten, Distinct, Placement.Ids, Admitted, InMatrix, InValidation, MatchAny, Named, Allows, NamedOrAny;
    hide OverBlocks, OverFamilies;
    AllPatterns(plan);
    AdmittedIds(plan, f, AllJobs(plan, f.tier));
    JobsOfBlocks(plan, f.tier, j);
    JobsOfFamilies(plan, j);
  }
}
