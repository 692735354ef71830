// What a new scheduler makes of the cooldowns of a run saved by an old version.
module Migration {
  import opened Names
  import opened Jobs
  import opened Budgets
  import opened Accounting
  import opened Invariants
  import opened State

  const MEMORY: int := 64 * 60_000_000_000

  // The attempt bears witness that an old entry was a quota restriction.
  predicate Matches(job: Job, a: Attempt, now: int, key: CooldownKey) {
    && a.outcome == Classified(Quota)
    && key == LegacyKey(job.series, ZoneRegion(a.zone))
    && a.end > now - MEMORY
  }

  // The i-th attempt of job id turns the unexpired old entry into a
  // restriction of quota key q until the given end.
  predicate CarriedBy(run: RunData, now: int, key: CooldownKey, id: string, i: nat, q: CooldownKey, until: int) {
    && key in run.cooldowns && key.LegacyKey? && run.cooldowns[key] == until && now < until
    && id in run.jobs && i < |run.jobs[id].attempts|
    && Matches(run.jobs[id].job, run.jobs[id].attempts[i], now, key)
    && q == QuotaKey(run.jobs[id].job.budgetKey, ZoneRegion(run.jobs[id].attempts[i].zone))
  }

  ghost predicate Carries(run: RunData, now: int, q: CooldownKey, until: int) {
    exists key, id, i: nat :: CarriedBy(run, now, key, id, i, q, until)
  }

  // The end of a quota restriction before or carried over.
  ghost predicate Claimed(run: RunData, now: int, q: CooldownKey, until: int) {
    (q in run.cooldowns && run.cooldowns[q] == until) || Carries(run, now, q, until)
  }

  // The migrated table: sweep cooldowns as they were, each quota key until the
  // latest of the ends claimed for it, and nothing else.
  ghost predicate IsMigration(run: RunData, now: int, m: map<CooldownKey, int>) {
    && (forall key :: key in m ==> !key.LegacyKey?)
    && (forall id :: StockoutKey(id) in m <==> StockoutKey(id) in run.cooldowns)
    && (forall id :: StockoutKey(id) in m ==> m[StockoutKey(id)] == run.cooldowns[StockoutKey(id)])
    && (forall q: CooldownKey :: q.QuotaKey? && q in m ==> Claimed(run, now, q, m[q]))
    && (forall q: CooldownKey, until :: q.QuotaKey? && Claimed(run, now, q, until) ==> q in m && until <= m[q])
  }

  // The migration does not depend on the order in which tables are walked.
  lemma MigrationIsUnique(run: RunData, now: int, m: map<CooldownKey, int>, n: map<CooldownKey, int>)
    requires IsMigration(run, now, m) && IsMigration(run, now, n)
    ensures m == n
  {
    forall key ensures key in m <==> key in n {
      if key.QuotaKey? {
        assert key in m ==> Claimed(run, now, key, m[key]);
        assert key in n ==> Claimed(run, now, key, n[key]);
      }
    }
    forall key | key in m ensures m[key] == n[key] {
      if key.QuotaKey? {
        assert Claimed(run, now, key, m[key]) && Claimed(run, now, key, n[key]);
      }
    }
  }

  // A table without old entries is its own migration, so migrating twice is
  // migrating once.
  lemma NothingToMigrate(run: RunData, now: int)
    requires forall key :: key in run.cooldowns ==> !key.LegacyKey?
    ensures IsMigration(run, now, run.cooldowns)
  {
  }

  lemma MigrationKeepsRun(cfg: Config, run: RunData, now: int, m: map<CooldownKey, int>)
    requires ValidRun(cfg, run) && IsMigration(run, now, m)
    ensures ValidRun(cfg, run.(cooldowns := m))
  {
    hide Claimed, Feasible, ValidRecord;
    var t := run.(cooldowns := m);
    forall id | id in t.jobs ensures SweepOK(cfg, t.cooldowns, id, t.jobs[id]) {
      assert SweepOK(cfg, run.cooldowns, id, run.jobs[id]);
    }
  }

  // The i-th attempt of job id ran into the quota less than 64 minutes ago, and
  // the old entry for its series and region still lasts until the given end.
  ghost predicate RecentFailure(run: RunData, now: int, id: string, i: nat, q: CooldownKey, until: int) {
    && id in run.jobs && i < |run.jobs[id].attempts|
    && var job, a := run.jobs[id].job, run.jobs[id].attempts[i];
       var region, entry := ZoneRegion(a.zone), LegacyKey(job.series, ZoneRegion(a.zone));
       && a.outcome == Classified(Quota) && a.end > now - 3_840_000_000_000
       && entry in run.cooldowns && run.cooldowns[entry] == until && now < until
       && q == QuotaKey(job.budgetKey, region)
  }

  // Such failures keep their region closed to the family of the job; nothing
  // else prolongs a restriction or makes a new one.
  lemma RecentFailuresAreCarried(run: RunData, now: int, m: map<CooldownKey, int>, q: CooldownKey, until: int)
    requires IsMigration(run, now, m) && q.QuotaKey?
    ensures (exists id, i: nat :: RecentFailure(run, now, id, i, q, until)) ==> q in m && m[q] >= until
    ensures q in m ==>
      (q in run.cooldowns && m[q] == run.cooldowns[q]) || exists id, i: nat :: RecentFailure(run, now, id, i, q, m[q])
  {
    hide IsMigration;
    MigratedEnds(run, now, m, q);
    if id, i: nat :| RecentFailure(run, now, id, i, q, until) {
      var a := run.jobs[id].attempts[i];
      CarriedIsClaimed(run, now, LegacyKey(run.jobs[id].job.series, ZoneRegion(a.zone)), id, i, q, until);
    }
    if q in m && Carries(run, now, q, m[q]) {
      var key, id, i: nat :| CarriedBy(run, now, key, id, i, q, m[q]);
      assert RecentFailure(run, now, id, i, q, m[q]);
    }
  }

  lemma MigratedEnds(run: RunData, now: int, m: map<CooldownKey, int>, q: CooldownKey)
    requires IsMigration(run, now, m) && q.QuotaKey?
    ensures q in m ==> Claimed(run, now, q, m[q])
    ensures forall until :: Claimed(run, now, q, until) ==> q in m && until <= m[q]
  {
    hide Claimed;
  }

  // ------------------------------------------------------------ the two loops

  // Every claim made through this key by these jobs is met.
  ghost predicate Met(run: RunData, now: int, m: map<CooldownKey, int>, key: CooldownKey, ids: set<string>) {
    forall id, i: nat, q, until :: id in ids && CarriedBy(run, now, key, id, i, q, until) ==> q in m && until <= m[q]
  }

  ghost predicate MetBelow(run: RunData, now: int, m: map<CooldownKey, int>, key: CooldownKey, id: string, n: nat) {
    forall i: nat, q, until :: i < n && CarriedBy(run, now, key, id, i, q, until) ==> q in m && until <= m[q]
  }

  // The table in the course of the migration, the old entries in todo still
  // to be visited.
  ghost predicate Underway(run: RunData, now: int, m: map<CooldownKey, int>, todo: set<CooldownKey>) {
    && (forall key: CooldownKey :: key.LegacyKey? ==> (key in m <==> key in todo))
    && (forall key :: key in todo ==> key in run.cooldowns)
    && (forall key :: key in todo && key.LegacyKey? ==> m[key] == run.cooldowns[key])
    && (forall id :: StockoutKey(id) in m <==> StockoutKey(id) in run.cooldowns)
    && (forall id :: StockoutKey(id) in m ==> m[StockoutKey(id)] == run.cooldowns[StockoutKey(id)])
    && (forall q: CooldownKey :: q.QuotaKey? && q in m ==> Claimed(run, now, q, m[q]))
    && (forall q: CooldownKey :: q.QuotaKey? && q in run.cooldowns ==> q in m && run.cooldowns[q] <= m[q])
  }

  // Raising a quota key to an end claimed for it.
  lemma RaiseKeeps(run: RunData, now: int, m: map<CooldownKey, int>, todo: set<CooldownKey>, q: CooldownKey, until: int)
    requires Underway(run, now, m, todo) && q.QuotaKey? && Claimed(run, now, q, until)
    requires q in m ==> m[q] < until
    ensures Underway(run, now, m[q := until], todo)
    ensures forall key, ids :: Met(run, now, m, key, ids) ==> Met(run, now, m[q := until], key, ids)
    ensures forall key, id, n :: MetBelow(run, now, m, key, id, n) ==> MetBelow(run, now, m[q := until], key, id, n)
  {
    hide CarriedBy, Claimed;
  }

  lemma Arrived(run: RunData, now: int, m: map<CooldownKey, int>)
    requires Underway(run, now, m, {})
    requires forall key :: key in run.cooldowns ==> Met(run, now, m, key, run.jobs.Keys)
    ensures IsMigration(run, now, m)
  {
    forall q: CooldownKey, until | q.QuotaKey? && Claimed(run, now, q, until) ensures q in m && until <= m[q] {
      if Carries(run, now, q, until) {
        var key, id, i: nat :| CarriedBy(run, now, key, id, i, q, until);
        assert Met(run, now, m, key, run.jobs.Keys);
      }
    }
    hide CarriedBy;
  }

  method MigrateRecord(
      st: RunState, now: int, key: CooldownKey, id: string, m: map<CooldownKey, int>,
      ghost todo: set<CooldownKey>)
    returns (m': map<CooldownKey, int>)
    requires st.Valid() && Underway(st.run, now, m, todo) && id in st.run.jobs
    requires key in st.run.cooldowns && key.LegacyKey? && now < st.run.cooldowns[key]
    ensures Underway(st.run, now, m', todo)
    ensures MetBelow(st.run, now, m', key, id, |st.run.jobs[id].attempts|)
    ensures forall k, ids :: Met(st.run, now, m, k, ids) ==> Met(st.run, now, m', k, ids)
  {
    hide Underway, Met, Claimed;
    m' := m;
    assert MetBelow(st.run, now, m, key, id, 0);
    var rec := st.Rec(id);
    var until := st.cooldowns[key];
    for i := 0 to |rec.attempts|
      invariant Underway(st.run, now, m', todo) && MetBelow(st.run, now, m', key, id, i)
      invariant forall k, ids :: Met(st.run, now, m, k, ids) ==> Met(st.run, now, m', k, ids)
    {
      var a := rec.attempts[i];
      if Matches(rec.job, a, now, key) {
        var q := QuotaKey(rec.job.budgetKey, ZoneRegion(a.zone));
        if q !in m' || m'[q] < until {
          assert CarriedBy(st.run, now, key, id, i, q, until);
          assert Claimed(st.run, now, q, until) by { CarriedIsClaimed(st.run, now, key, id, i, q, until); }
          RaiseKeeps(st.run, now, m', todo, q, until);
          m' := m'[q := until];
        }
      }
    }
  }

  lemma CarriedIsClaimed(run: RunData, now: int, key: CooldownKey, id: string, i: nat, q: CooldownKey, until: int)
    requires CarriedBy(run, now, key, id, i, q, until)
    ensures Claimed(run, now, q, until)
  {
  }

  // Both tables are walked in no particular order.
  method MigrateKey(st: RunState, now: int, key: CooldownKey, m: map<CooldownKey, int>, ghost todo: set<CooldownKey>)
    returns (m': map<CooldownKey, int>)
    requires st.Valid() && Underway(st.run, now, m, todo)
    requires key in st.run.cooldowns && key.LegacyKey? && now < st.run.cooldowns[key]
    ensures Underway(st.run, now, m', todo) && Met(st.run, now, m', key, st.run.jobs.Keys)
    ensures forall k, ids :: Met(st.run, now, m, k, ids) ==> Met(st.run, now, m', k, ids)
  {
    hide Underway, CarriedBy, RunState.Valid, RunState.ValidBut;
    st.KnownAll();
    m' := m;
    var rest := st.jobs.Keys;
    while rest != {}
      invariant rest <= st.run.jobs.Keys
      invariant Underway(st.run, now, m', todo) && Met(st.run, now, m', key, st.run.jobs.Keys - rest)
      invariant forall k, ids :: Met(st.run, now, m, k, ids) ==> Met(st.run, now, m', k, ids)
      decreases |rest|
    {
      var id :| id in rest;
      ghost var before := m';
      m' := MigrateRecord(st, now, key, id, m', todo);
      assert Met(st.run, now, m', key, st.run.jobs.Keys - rest);
      MetOneMore(st.run, now, m', key, st.run.jobs.Keys - rest, id);
      rest := rest - {id};
    }
    assert st.run.jobs.Keys - rest == st.run.jobs.Keys;
  }

  lemma MetOneMore(run: RunData, now: int, m: map<CooldownKey, int>, key: CooldownKey, ids: set<string>, id: string)
    requires Met(run, now, m, key, ids) && id in run.jobs && MetBelow(run, now, m, key, id, |run.jobs[id].attempts|)
    ensures Met(run, now, m, key, ids + {id})
  {
  }

  method Migrate(st: RunState, now: int) returns (m: map<CooldownKey, int>)
    requires st.Valid()
    ensures IsMigration(st.run, now, m)
  {
    hide Met, CarriedBy, IsMigration, Underway, RunState.Valid, RunState.ValidBut;
    st.KnownAll();
    UnderwayFirst(st.run, now);
    m := st.cooldowns;
    var todo := st.cooldowns.Keys;
    while todo != {}
      invariant Underway(st.run, now, m, todo)
      invariant forall key :: key in st.run.cooldowns && key !in todo ==> Met(st.run, now, m, key, st.run.jobs.Keys)
      decreases |todo|
    {
      var key :| key in todo;
      UnderwayAt(st.run, now, m, todo, key);
      if key.LegacyKey? {
        if now < m[key] {
          m := MigrateKey(st, now, key, m, todo);
        } else {
          ExpiredClaimsNothing(st.run, now, m, key, st.run.jobs.Keys);
        }
        DropKeeps(st.run, now, m, key);
        UnderwayNext(st.run, now, m, todo, key);
        m := m - {key};
      } else {
        ExpiredClaimsNothing(st.run, now, m, key, st.run.jobs.Keys);
        UnderwayNext(st.run, now, m, todo, key);
      }
      todo := todo - {key};
    }
    Arrived(st.run, now, m);
  }

  lemma UnderwayFirst(run: RunData, now: int)
    ensures Underway(run, now, run.cooldowns, run.cooldowns.Keys)
  {
    hide Carries;
  }

  lemma UnderwayAt(run: RunData, now: int, m: map<CooldownKey, int>, todo: set<CooldownKey>, key: CooldownKey)
    requires Underway(run, now, m, todo) && key in todo
    ensures key in run.cooldowns && (key.LegacyKey? ==> key in m && m[key] == run.cooldowns[key])
  {
  }

  lemma UnderwayNext(run: RunData, now: int, m: map<CooldownKey, int>, todo: set<CooldownKey>, key: CooldownKey)
    requires Underway(run, now, m, todo) && key in todo
    ensures Underway(run, now, if key.LegacyKey? then m - {key} else m, todo - {key})
  {
    hide Claimed;
  }

  lemma ExpiredClaimsNothing(run: RunData, now: int, m: map<CooldownKey, int>, key: CooldownKey, ids: set<string>)
    requires key in run.cooldowns && (!key.LegacyKey? || run.cooldowns[key] <= now)
    ensures Met(run, now, m, key, ids)
  {
  }

  lemma DropKeeps(run: RunData, now: int, m: map<CooldownKey, int>, key: CooldownKey)
    requires key.LegacyKey?
    ensures forall k, ids :: Met(run, now, m, k, ids) ==> Met(run, now, m - {key}, k, ids)
  {
  }
}
