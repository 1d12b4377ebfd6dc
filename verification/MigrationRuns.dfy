/** Applying migrations: one transaction each, resumed after any interruption. */
module MigrationRuns {

  import opened Wrappers
  import opened Migrations

  /** The primary key of schema_migrations. */
  datatype Key = Key(service: string, version: int)

  datatype Applied = Applied(name: string, checksum: string)

  datatype Statement = Statement(key: Key, sql: string)

  /** The rows of schema_migrations, and every migration statement the database has committed, in order. */
  datatype Db = Db(applied: map<Key, Applied>, committed: seq<Statement>)

  /** What becomes of a transaction; an unheard commit is one whose answer never reaches the runner. */
  datatype Fate = Commits | RollsBack | CommitsUnheard

  datatype ApplyError = TableNotCreated | ChecksumMismatch(version: int) | Interrupted(version: int)

  datatype Ran = Ran(db: Db, outcome: Outcome<ApplyError>)

  function KeyOf(service: string, m: Migration): Key {
    Key(service, m.version)
  }

  predicate IsRecorded(db: Db, service: string, m: Migration) {
    KeyOf(service, m) in db.applied && db.applied[KeyOf(service, m)].checksum == m.checksum
  }

  predicate Mismatches(db: Db, service: string, m: Migration) {
    KeyOf(service, m) in db.applied && db.applied[KeyOf(service, m)].checksum != m.checksum
  }

  function Executed(db: Db, service: string, m: Migration): Db {
    Db(db.applied[KeyOf(service, m) := Applied(m.name, m.checksum)],
       db.committed + [Statement(KeyOf(service, m), m.sql)])
  }

  function AfterApply(db: Db, service: string, m: Migration, fate: Fate): Ran {
    if Mismatches(db, service, m) then Ran(db, Err(ChecksumMismatch(m.version)))
    else
      Ran(if fate.RollsBack? || IsRecorded(db, service, m) then db else Executed(db, service, m),
          if fate.Commits? then Ok else Err(Interrupted(m.version)))
  }

  /** The run from the migration at the given index on, to its end or its first error. */
  function RunFrom(db: Db, service: string, list: seq<Migration>, i: nat, fates: nat -> Fate): Ran
    requires i <= |list|
    decreases |list| - i
  {
    if i == |list| then Ran(db, Ok)
    else
      var r := AfterApply(db, service, list[i], fates(i));
      if r.outcome.Err? then r else RunFrom(r.db, service, list, i + 1, fates)
  }

  /** How a run goes: whether schema_migrations can be created or is there, and the fate of each transaction. */
  datatype Attempt = Attempt(creates: bool, fates: nat -> Fate)

  function AfterRun(db: Db, service: string, list: seq<Migration>, attempt: Attempt): Ran {
    if attempt.creates then RunFrom(db, service, list, 0, attempt.fates) else Ran(db, Err(TableNotCreated))
  }

  class Runner {
    var applied: map<Key, Applied>
    ghost var committed: seq<Statement>

    constructor ()
      ensures Value() == Db(map[], [])
    {
      applied, committed := map[], [];
    }

    ghost function Value(): Db
      reads this
    {
      Db(applied, committed)
    }

    method Apply(service: string, m: Migration, fate: Fate) returns (outcome: Outcome<ApplyError>)
      modifies this
      ensures Ran(Value(), outcome) == AfterApply(old(Value()), service, m, fate)
      ensures var key := Key(service, m.version);
              if key in old(applied) && old(applied)[key].checksum != m.checksum then
                Value() == old(Value()) && outcome == Err(ChecksumMismatch(m.version))
              else
                && outcome == (if fate.Commits? then Ok else Err(Interrupted(m.version)))
                && (key in old(applied) || fate.RollsBack? ==> Value() == old(Value()))
                && (key !in old(applied) && !fate.RollsBack? ==>
                      && applied == old(applied)[key := Applied(m.name, m.checksum)]
                      && committed == old(committed) + [Statement(key, m.sql)])
    {
      var key := KeyOf(service, m);
      if key in applied {
        if applied[key].checksum != m.checksum {
          return Err(ChecksumMismatch(m.version));
        }
        return if fate.Commits? then Ok else Err(Interrupted(m.version));
      }
      if fate.RollsBack? {
        return Err(Interrupted(m.version));
      }
      committed := committed + [Statement(key, m.sql)];
      applied := applied[key := Applied(m.name, m.checksum)];
      return if fate.CommitsUnheard? then Err(Interrupted(m.version)) else Ok;
    }

    method Run(service: string, list: seq<Migration>, attempt: Attempt) returns (outcome: Outcome<ApplyError>)
      modifies this
      ensures Ran(Value(), outcome) == AfterRun(old(Value()), service, list, attempt)
    {
      if !attempt.creates {
        return Err(TableNotCreated);
      }
      for i := 0 to |list|
        invariant RunFrom(Value(), service, list, i, attempt.fates) == AfterRun(old(Value()), service, list, attempt)
      {
        outcome := Apply(service, list[i], attempt.fates(i));
        if outcome.Err? {
          return;
        }
      }
      return Ok;
    }
  }

  // ---- Resuming ----

  function Uninterrupted(db: Db, service: string, list: seq<Migration>): Ran {
    RunFrom(db, service, list, 0, _ => Commits)
  }

  ghost predicate AllRecorded(db: Db, service: string, list: seq<Migration>, i: nat)
    requires i <= |list|
  {
    forall k | 0 <= k < i :: IsRecorded(db, service, list[k])
  }

  lemma ApplyKeepsRecords(db: Db, service: string, list: seq<Migration>, i: nat, fate: Fate)
    requires i < |list| && AllRecorded(db, service, list, i)
    ensures var r := AfterApply(db, service, list[i], fate);
            && AllRecorded(r.db, service, list, i)
            && (r.outcome.Ok? ==> AllRecorded(r.db, service, list, i + 1))
  {
  }

  /** A run over migrations that are all recorded reads them and changes nothing. */
  lemma {:induction false} RecordedChangeNothing(db: Db, service: string, list: seq<Migration>, i: nat, n: nat,
      fates: nat -> Fate)
    requires i <= n <= |list| && AllRecorded(db, service, list, n)
    ensures (forall k | i <= k < n :: fates(k).Commits?)
            ==> RunFrom(db, service, list, i, fates) == RunFrom(db, service, list, n, fates)
    ensures n == |list| ==> RunFrom(db, service, list, i, fates).db == db
    decreases n - i
  {
    if i < n {
      RecordedChangeNothing(db, service, list, i + 1, n, fates);
    }
  }

  /** What the database would hold after an uninterrupted run is the same before and after a run of any fate. */
  lemma {:induction false} ResumesFrom(db: Db, service: string, list: seq<Migration>, i: nat, fates: nat -> Fate)
    requires i <= |list| && AllRecorded(db, service, list, i)
    ensures Uninterrupted(RunFrom(db, service, list, i, fates).db, service, list)
        == RunFrom(db, service, list, i, _ => Commits)
    ensures RunFrom(db, service, list, i, fates).outcome.Ok? ==>
              && AllRecorded(RunFrom(db, service, list, i, fates).db, service, list, |list|)
              && RunFrom(db, service, list, i, fates) == RunFrom(db, service, list, i, _ => Commits)
    decreases |list| - i
  {
    var always: nat -> Fate := _ => Commits;
    RecordedChangeNothing(db, service, list, 0, i, always);
    if i < |list| {
      var r, full := AfterApply(db, service, list[i], fates(i)), AfterApply(db, service, list[i], Commits);
      ApplyKeepsRecords(db, service, list, i, fates(i));
      ApplyKeepsRecords(db, service, list, i, Commits);
      if r.outcome.Ok? {
        ResumesFrom(r.db, service, list, i + 1, fates);
      } else if r.db == full.db && full.outcome.Ok? {
        RecordedChangeNothing(r.db, service, list, 0, i + 1, always);
      }
    }
  }

  function AfterRuns(db: Db, service: string, list: seq<Migration>, runs: seq<Attempt>): Db {
    if runs == [] then db
    else AfterRun(AfterRuns(db, service, list, runs[..|runs| - 1]), service, list, runs[|runs| - 1]).db
  }

  /** Interrupted runs lose nothing: the runner ends, and would end, where one uninterrupted run ends. */
  lemma {:induction false} InterruptedRunsResume(db: Db, service: string, list: seq<Migration>, runs: seq<Attempt>)
    ensures Uninterrupted(AfterRuns(db, service, list, runs), service, list) == Uninterrupted(db, service, list)
  {
    if runs != [] {
      var before := AfterRuns(db, service, list, runs[..|runs| - 1]);
      InterruptedRunsResume(db, service, list, runs[..|runs| - 1]);
      ResumesFrom(before, service, list, 0, runs[|runs| - 1].fates);
    }
  }

  /**
   Any interrupted runs and then a complete one leave what one uninterrupted run leaves, and later runs change
   nothing.
   */
  lemma CompleteRunIsUninterrupted(
    db: Db, service: string, list: seq<Migration>, runs: seq<Attempt>, last: Attempt, later: Attempt)
    requires AfterRun(AfterRuns(db, service, list, runs), service, list, last).outcome.Ok?
    ensures var done := AfterRun(AfterRuns(db, service, list, runs), service, list, last).db;
            done == Uninterrupted(db, service, list).db && AfterRun(done, service, list, later).db == done
  {
    var before := AfterRuns(db, service, list, runs);
    var done := AfterRun(before, service, list, last).db;
    InterruptedRunsResume(db, service, list, runs);
    ResumesFrom(before, service, list, 0, last.fates);
    RecordedChangeNothing(done, service, list, 0, |list|, later.fates);
  }

  // ---- What a run executes ----

  /** The statements of the migrations among the first n that the database has not recorded. */
  function Pending(db: Db, service: string, list: seq<Migration>, n: nat): seq<Statement>
    requires n <= |list|
  {
    if n == 0 then []
    else
      var m := list[n - 1];
      Pending(db, service, list, n - 1)
      + (if KeyOf(service, m) in db.applied then [] else [Statement(KeyOf(service, m), m.sql)])
  }

  /** The index of the first migration whose recorded checksum differs, or the length of the list. */
  function FirstMismatch(db: Db, service: string, list: seq<Migration>, i: nat): (j: nat)
    requires i <= |list|
    ensures i <= j <= |list| && (j < |list| ==> Mismatches(db, service, list[j]))
    ensures forall k | i <= k < j :: !Mismatches(db, service, list[k])
    decreases |list| - i
  {
    if i == |list| || Mismatches(db, service, list[i]) then i else FirstMismatch(db, service, list, i + 1)
  }

  /** The database once the first n migrations of the list are handled, and nothing else has happened. */
  function Handled(db: Db, service: string, list: seq<Migration>, n: nat): Db
    requires n <= |list|
  {
    if n == 0 then db
    else
      var before := Handled(db, service, list, n - 1);
      if KeyOf(service, list[n - 1]) in db.applied then before else Executed(before, service, list[n - 1])
  }

  lemma {:induction false} HandledKeys(db: Db, service: string, list: seq<Migration>, n: nat)
    requires n <= |list|
    ensures forall key :: key in Handled(db, service, list, n).applied <==>
                            key in db.applied || exists k | 0 <= k < n :: key == KeyOf(service, list[k])
    ensures forall key | key in db.applied :: Handled(db, service, list, n).applied[key] == db.applied[key]
  {
    if n > 0 {
      HandledKeys(db, service, list, n - 1);
    }
  }

  /** Handling adds the missing statements in order, and records each new migration with its checksum. */
  lemma {:induction false} HandledAdds(db: Db, service: string, list: seq<Migration>, n: nat)
    requires Increasing(list) && n <= |list|
    ensures Handled(db, service, list, n).committed == db.committed + Pending(db, service, list, n)
    ensures forall k | 0 <= k < n && KeyOf(service, list[k]) !in db.applied ::
              && KeyOf(service, list[k]) in Handled(db, service, list, n).applied
              && Handled(db, service, list, n).applied[KeyOf(service, list[k])]
                  == Applied(list[k].name, list[k].checksum)
  {
    if n > 0 {
      HandledAdds(db, service, list, n - 1);
    }
  }

  lemma NextIsUntouched(db: Db, service: string, list: seq<Migration>, n: nat)
    requires Increasing(list) && n < |list|
    ensures var now, key := Handled(db, service, list, n), KeyOf(service, list[n]);
            (key in now.applied <==> key in db.applied) && (key in db.applied ==> now.applied[key] == db.applied[key])
  {
    HandledKeys(db, service, list, n);
    assert forall k | 0 <= k < n :: KeyOf(service, list[k]) != KeyOf(service, list[n]);
  }

  /** A run handles a prefix of the list that ends before the first mismatch, and succeeds only by handling it all. */
  lemma {:induction false} RunHandlesPrefix(db: Db, service: string, list: seq<Migration>, i: nat, fates: nat -> Fate)
      returns (n: nat)
    requires Increasing(list) && i <= FirstMismatch(db, service, list, 0)
    ensures i <= n <= FirstMismatch(db, service, list, 0)
    ensures var r := RunFrom(Handled(db, service, list, i), service, list, i, fates);
            && r.db == Handled(db, service, list, n)
            && (r.outcome.Ok? ==> n == |list|)
            && ((forall k: nat :: fates(k) == Commits)
                ==> n == FirstMismatch(db, service, list, 0) && (r.outcome.Ok? <==> n == |list|))
    decreases |list| - i
  {
    n := i;
    if i < |list| {
      var now := Handled(db, service, list, i);
      var r := AfterApply(now, service, list[i], fates(i));
      NextIsUntouched(db, service, list, i);
      if r.outcome.Ok? {
        assert r.db == Handled(db, service, list, i + 1);
        n := RunHandlesPrefix(db, service, list, i + 1, fates);
      } else if r.db != now {
        n := i + 1;
      }
    }
  }

  /** The exact effect of an uninterrupted run of a loaded list: the missing migrations up to the first mismatch. */
  lemma RunExecutesMissing(db: Db, service: string, list: seq<Migration>)
    requires Increasing(list)
    ensures var r, j := Uninterrupted(db, service, list), FirstMismatch(db, service, list, 0);
            && (r.outcome.Ok? <==> j == |list|)
            && r.db == Handled(db, service, list, j)
            && r.db.committed == db.committed + Pending(db, service, list, j)
  {
    var n := RunHandlesPrefix(db, service, list, 0, _ => Commits);
    HandledAdds(db, service, list, n);
  }

  /** A migration at or after one whose file was edited is neither executed nor recorded, in any number of runs. */
  lemma {:induction false} MismatchStops(db: Db, service: string, list: seq<Migration>, j: nat, runs: seq<Attempt>)
    requires Increasing(list) && j < |list| && Mismatches(db, service, list[j])
    ensures var now := AfterRuns(db, service, list, runs);
            && Mismatches(now, service, list[j])
            && Untouched(db, now, service, list[j].version)
            && (forall last :: AfterRun(now, service, list, last).outcome.Err?)
  {
    if runs != [] {
      var before := AfterRuns(db, service, list, runs[..|runs| - 1]);
      MismatchStops(db, service, list, j, runs[..|runs| - 1]);
      RunStopsAt(before, service, list, 0, j, runs[|runs| - 1].fates);
    }
    var now := AfterRuns(db, service, list, runs);
    forall last ensures AfterRun(now, service, list, last).outcome.Err? {
      RunStopsAt(now, service, list, 0, j, last.fates);
    }
  }

  /** No statement or row of the service's versions from the given one on was added. */
  ghost predicate Untouched(db: Db, now: Db, service: string, version: int) {
    && db.committed <= now.committed
    && (forall k | |db.committed| <= k < |now.committed| ::
          now.committed[k].key.service == service && now.committed[k].key.version < version)
    && (forall key: Key | key.service != service || key.version >= version ::
          && (key in now.applied <==> key in db.applied)
          && (key in db.applied ==> now.applied[key] == db.applied[key]))
  }

  lemma {:induction false} RunStopsAt(db: Db, service: string, list: seq<Migration>, i: nat, j: nat, fates: nat -> Fate)
    requires Increasing(list) && i <= j < |list| && Mismatches(db, service, list[j])
    ensures var r := RunFrom(db, service, list, i, fates);
            && r.outcome.Err?
            && Mismatches(r.db, service, list[j])
            && Untouched(db, r.db, service, list[j].version)
    decreases |list| - i
  {
    var r := AfterApply(db, service, list[i], fates(i));
    if r.outcome.Ok? {
      assert i < j && Untouched(db, r.db, service, list[j].version);
      RunStopsAt(r.db, service, list, i + 1, j, fates);
    }
  }

  // ---- Each statement once ----

  datatype Application = Application(service: string, migration: Migration, fate: Fate)

  /** Applications by any number of runners of any services, in the order in which their transactions ended. */
  function AfterApplications(applications: seq<Application>): Db {
    if applications == [] then Db(map[], [])
    else
      var a := applications[|applications| - 1];
      AfterApply(AfterApplications(applications[..|applications| - 1]), a.service, a.migration, a.fate).db
  }

  /** A version's SQL has been committed once if it is recorded, and never if it is not. */
  lemma {:induction false} EachVersionCommitsOnce(applications: seq<Application>, key: Key)
    ensures var db := AfterApplications(applications);
            && (key in db.applied ==> exists i | 0 <= i < |db.committed| :: db.committed[i].key == key)
            && (forall i | 0 <= i < |db.committed| :: db.committed[i].key in db.applied)
            && (forall i, j | 0 <= i < j < |db.committed| :: db.committed[i].key != db.committed[j].key)
  {
    if applications != [] {
      EachVersionCommitsOnce(applications[..|applications| - 1], key);
      var before, db := AfterApplications(applications[..|applications| - 1]), AfterApplications(applications);
      if db != before {
        assert db.committed[..|before.committed|] == before.committed;
        assert key in before.applied ==> exists i | 0 <= i < |before.committed| :: db.committed[i].key == key;
        assert db.committed[|before.committed|].key in db.applied;
      }
    }
  }
}
