// The zones of a region take turns.
module Rotation {
  import opened Names
  import opened Jobs
  import opened Budgets
  import opened Spec
  import opened Picking

  // The zones a pass may take in a region: those that the sweep and the quota
  // windows leave, without the avoided one in the first pass.
  ghost predicate Takes(s: Sched, now: int, rec: Record, avoid: string, first: bool, region: string, z: string) {
    var window := QuotaKey(rec.job.budgetKey, region);
    && z in rec.job.zones && z !in rec.swept && ZoneRegion(z) == region && (first ==> z != avoid)
    && (window in s.run.cooldowns ==> s.run.cooldowns[window] <= now)
  }

  // z is the zone whose turn it is.
  ghost predicate InTurn(
      s: Sched, now: int, rec: Record, avoid: string, first: bool, region: string, turn: nat, z: string,
      zones: seq<string>)
  {
    && zones != [] && z == zones[turn % |zones|]
    && forall x :: x in zones <==> Takes(s, now, rec, avoid, first, region, x)
  }

  lemma ChosenInTurn(cfg: Config, s: Sched, now: int, rec: Record, avoid: string, skipLast: bool)
    ensures var z := ChooseZone(cfg, s, now, rec, avoid, skipLast);
      z != "" ==> exists zones ::
        InTurn(s, now, rec, avoid, skipLast, ZoneRegion(z), GetOr(s.zoneRR, ZoneRegion(z), 0), z, zones)
  {
    hide Candidates, RegionsOf, ZonesIn, BestRegion, Sort, ZoneRegion;
    var cands := Candidates(s.run, now, rec, avoid, skipLast, rec.job.zones);
    var best := BestRegion(cfg, s, now, rec.job, Sort(RegionsOf(cands))).0;
    var zones := ZonesIn(cands, best);
    var z := ChooseZone(cfg, s, now, rec, avoid, skipLast);
    if z != "" {
      forall x ensures x in zones <==> Takes(s, now, rec, avoid, skipLast, best, x) {
        ZonesInMember(cands, best, x);
        CandidatesMember(s.run, now, rec, avoid, skipLast, rec.job.zones, x);
      }
      assert z in zones;
      assert InTurn(s, now, rec, avoid, skipLast, best, GetOr(s.zoneRR, best, 0), z, zones);
    }
  }

  // A chosen zone is the one whose turn it is in its region, and only that
  // region's turn moves on, by one.
  lemma PickZoneTakesTurns(cfg: Config, s: Sched, now: int, id: string, avoid: string)
    requires id in s.run.jobs
    ensures var (z, t) := PickZone(cfg, s, now, id, avoid);
      var s1, region := s.(run := StartSweep(s.run, now, id)), ZoneRegion(z);
      var turn := GetOr(s.zoneRR, region, 0);
      && (z == "" ==> t.zoneRR == s.zoneRR)
      && (z != "" ==>
            && t.zoneRR == s.zoneRR[region := turn + 1]
            && exists first, zones :: InTurn(s1, now, s1.run.jobs[id], avoid, first, region, turn, z, zones))
  {
    hide ChooseZone, ZoneRegion, StartSweep, InTurn;
    var s1 := s.(run := StartSweep(s.run, now, id));
    ChosenInTurn(cfg, s1, now, s1.run.jobs[id], avoid, true);
    ChosenInTurn(cfg, s1, now, s1.run.jobs[id], avoid, false);
  }

  lemma {:induction false} Multiples(n: nat, p: nat, q: nat)
    requires p < q
    ensures n * p + n <= n * q
  {
    if p + 1 < q {
      Multiples(n, p, q - 1);
    }
    assert n * q == n * (q - 1) + n;
  }

  lemma Remainder(n: nat, p: nat, i: nat, q: nat, j: nat)
    requires i < n && j < n && n * p + i == n * q + j
    ensures i == j
  {
    if p < q {
      Multiples(n, p, q);
    } else if q < p {
      Multiples(n, q, p);
    }
  }

  lemma RemainderIs(a: nat, n: nat, q: nat, r: nat)
    requires r < n && a == n * q + r
    ensures a % n == r
  {
    Remainder(n, a / n, a % n, q, r);
  }

  lemma TurnsUntil(n: nat, turn: nat, i: nat) returns (d: nat)
    requires i < n
    ensures d < n && (turn + d) % n == i
  {
    var q, k := turn % n, turn / n;
    if i >= q {
      d := i - q;
      RemainderIs(turn + d, n, k, i);
    } else {
      d := i - q + n;
      assert n * (k + 1) == n * k + n;
      RemainderIs(turn + d, n, k + 1, i);
    }
  }

  // z comes next after d other turns.
  ghost predicate NextAfter(zones: seq<string>, turn: nat, d: nat, z: string) {
    zones != [] && zones[(turn + d) % |zones|] == z
  }

  // As long as a region offers the same zones, each of them is taken within as
  // many turns as there are.
  lemma EveryZoneHasItsTurn(zones: seq<string>, turn: nat, z: string)
    requires z in zones
    ensures exists d: nat :: d < |zones| && NextAfter(zones, turn, d, z)
  {
    var i :| 0 <= i < |zones| && zones[i] == z;
    var d := TurnsUntil(|zones|, turn, i);
    assert NextAfter(zones, turn, d, z);
  }
}
