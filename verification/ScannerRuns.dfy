/** Any number of scanners, commands and scans on one scanner database, in any interleaving. */
module ScannerRuns {

  import opened Wrappers
  import opened Clock
  import opened Contracts
  import opened Batches
  import opened Scanner

  datatype World = World(now: Time, tables: Tables, collation: Collation)

  /**
   The backoff of a scanner is positive. A scan works on what its scanner read when it claimed the repo, however old
   that is by now.
   */
  datatype Step =
    | Tick(to: Time)
    | Claim(limit: nat, backoff: Time, batch: seq<Repo>)
    | Scan(claimed: Claimed, answer: Option<string>)
    | Apply(command: WatchCommand, failure: Option<string>)

  function Init(now: Time, collation: Collation): World {
    World(now, Tables(map[], {}, [], []), collation)
  }

  ghost predicate Enabled(w: World, s: Step) {
    match s
    case Tick(to) => w.now <= to
    case Claim(limit, backoff, batch) =>
      backoff > 0 && IsBatch(DueKeys(w.tables.watchlist, w.now, w.collation), limit, batch)
    case Scan(_, _) => true
    case Apply(command, _) => AcceptsCommand(command)
  }

  function Next(w: World, s: Step): World
    requires Enabled(w, s)
  {
    match s
    case Tick(to) => w.(now := to)
    case Claim(_, backoff, batch) => w.(tables := AfterClaim(w.tables, batch, w.now, backoff))
    case Scan(claimed, answer) => w.(tables := AfterScan(w.tables, claimed, answer, true))
    case Apply(command, failure) => w.(tables := AfterCommand(w.tables, command, failure, w.now))
  }

  ghost predicate Possible(w: World, steps: seq<Step>)
    decreases |steps|
  {
    steps == [] || (Enabled(w, steps[0]) && Possible(Next(w, steps[0]), steps[1..]))
  }

  ghost function Run(w: World, steps: seq<Step>): World
    requires Possible(w, steps)
    decreases |steps|
  {
    if steps == [] then w else Run(Next(w, steps[0]), steps[1..])
  }

  // ---- One event per release ----

  function EventsOf(detected: seq<Release>, release: Release): nat {
    multiset(detected)[release]
  }

  ghost predicate OneEventEach(t: Tables) {
    forall release :: EventsOf(t.detected, release) == if release in t.releases then 1 else 0
  }

  ghost predicate TagsRecorded(t: Tables) {
    && (forall repo | repo in t.watchlist ::
          t.watchlist[repo].lastSeenTag == "" || Release(repo, t.watchlist[repo].lastSeenTag) in t.releases)
    && (forall release | release in t.releases :: release.tag != "")
  }

  lemma StepRecords(w: World, s: Step)
    requires OneEventEach(w.tables) && TagsRecorded(w.tables) && Enabled(w, s)
    ensures OneEventEach(Next(w, s).tables) && TagsRecorded(Next(w, s).tables)
    ensures w.tables.releases <= Next(w, s).tables.releases
  {
  }

  lemma {:induction false} RunRecords(w: World, steps: seq<Step>)
    requires OneEventEach(w.tables) && TagsRecorded(w.tables) && Possible(w, steps)
    ensures OneEventEach(Run(w, steps).tables) && TagsRecorded(Run(w, steps).tables)
    ensures w.tables.releases <= Run(w, steps).tables.releases
    decreases |steps|
  {
    if steps != [] {
      StepRecords(w, steps[0]);
      RunRecords(Next(w, steps[0]), steps[1..]);
    }
  }

  /**
   The outbox announces each recorded release exactly once and nothing else; every last_seen_tag is empty or recorded.
   */
  lemma OneEventPerRelease(start: Time, collation: Collation, steps: seq<Step>, repo: Repo, tag: string)
    requires Possible(Init(start, collation), steps)
    ensures var t := Run(Init(start, collation), steps).tables;
            && EventsOf(t.detected, Release(repo, tag)) == (if Release(repo, tag) in t.releases then 1 else 0)
            && (repo in t.watchlist && t.watchlist[repo].lastSeenTag == tag && tag != ""
                ==> Release(repo, tag) in t.releases)
  {
    RunRecords(Init(start, collation), steps);
  }

  /**
   A scan that sees a new tag has it recorded, and so announced, from then on; an old tag is never announced again.
   */
  lemma ScanAnnounces(start: Time, collation: Collation, before: seq<Step>, claimed: Claimed, tag: string,
      after: seq<Step>)
    requires tag != "" && tag != claimed.lastSeenTag
    requires Possible(Init(start, collation), before)
    requires Possible(Next(Run(Init(start, collation), before), Scan(claimed, Some(tag))), after)
    ensures var t := Run(Next(Run(Init(start, collation), before), Scan(claimed, Some(tag))), after).tables;
            EventsOf(t.detected, Release(claimed.repo, tag)) == 1
  {
    var w := Run(Init(start, collation), before);
    RunRecords(Init(start, collation), before);
    StepRecords(w, Scan(claimed, Some(tag)));
    RunRecords(Next(w, Scan(claimed, Some(tag))), after);
  }

  // ---- A tick of the scanner is a run ----

  function ScanSteps(claimed: seq<Claimed>, answers: Repo -> Option<string>, commits: Repo -> bool): seq<Step> {
    if claimed == [] then []
    else
      var last := claimed[|claimed| - 1];
      ScanSteps(claimed[..|claimed| - 1], answers, commits)
      + (if commits(last.repo) then [Scan(last, answers(last.repo))] else [])
  }

  lemma {:induction false} ScansAreARun(w: World, claimed: seq<Claimed>, answers: Repo -> Option<string>,
      commits: Repo -> bool)
    ensures Possible(w, ScanSteps(claimed, answers, commits))
    ensures Run(w, ScanSteps(claimed, answers, commits))
        == w.(tables := AfterScans(w.tables, claimed, answers, commits))
    decreases |claimed|
  {
    if claimed != [] {
      var before, last := claimed[..|claimed| - 1], claimed[|claimed| - 1];
      ScansAreARun(w, before, answers, commits);
      RunAppend(w, ScanSteps(before, answers, commits), Scan(last, answers(last.repo)));
      assert ScanSteps(before, answers, commits) + [] == ScanSteps(before, answers, commits);
    }
  }

  lemma {:induction false} RunAppend(w: World, steps: seq<Step>, s: Step)
    requires Possible(w, steps) && Enabled(Run(w, steps), s)
    ensures Possible(w, steps + [s]) && Run(w, steps + [s]) == Next(Run(w, steps), s)
    decreases |steps|
  {
    if steps == [] {
      assert steps + [s] == [s] && [s][1..] == [];
    } else {
      RunAppend(Next(w, steps[0]), steps[1..], s);
      assert (steps + [s])[1..] == steps[1..] + [s];
    }
  }

  // ---- Claims of one repo keep their distance ----

  /** No command for the repo is applied. */
  ghost predicate LeavesReserved(s: Step, repo: Repo) {
    s.Apply? ==> s.command.repo != repo
  }

  ghost predicate ReservedUntil(w: World, repo: Repo, until: Time) {
    repo in w.tables.watchlist && w.tables.watchlist[repo].nextScanAt >= until
  }

  lemma ReservationHolds(w: World, s: Step, repo: Repo, until: Time)
    requires Enabled(w, s) && LeavesReserved(s, repo) && ReservedUntil(w, repo, until)
    ensures ReservedUntil(Next(w, s), repo, until)
    ensures s.Claim? && repo in s.batch ==> w.now >= until
  {
    if s.Claim? && repo in s.batch {
      assert repo in DueKeys(w.tables.watchlist, w.now, w.collation);
    }
  }

  /** Two claims of a repo, with no command for it in between, are at least the backoff of the first apart. */
  lemma {:induction false} ClaimsKeepDistance(w: World, first: Step, between: seq<Step>, second: Step, repo: Repo)
    requires Enabled(w, first) && first.Claim? && repo in first.batch
    requires Possible(Next(w, first), between) && forall s | s in between :: LeavesReserved(s, repo)
    requires Enabled(Run(Next(w, first), between), second) && second.Claim? && repo in second.batch
    ensures Run(Next(w, first), between).now >= w.now + first.backoff
  {
    assert repo in DueKeys(w.tables.watchlist, w.now, w.collation);
    ReservationOutlasts(Next(w, first), between, repo, w.now + first.backoff);
    var last := Run(Next(w, first), between);
    assert repo in DueKeys(last.tables.watchlist, last.now, last.collation);
  }

  lemma {:induction false} ReservationOutlasts(w: World, steps: seq<Step>, repo: Repo, until: Time)
    requires Possible(w, steps) && (forall s | s in steps :: LeavesReserved(s, repo)) && ReservedUntil(w, repo, until)
    ensures ReservedUntil(Run(w, steps), repo, until)
    decreases |steps|
  {
    if steps != [] {
      ReservationHolds(w, steps[0], repo, until);
      ReservationOutlasts(Next(w, steps[0]), steps[1..], repo, until);
    }
  }
}
