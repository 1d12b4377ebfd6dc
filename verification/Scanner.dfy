/** The scanner service: watchlist, recorded releases, watch commands and the scan loop. */
module Scanner {

  import opened Wrappers
  import opened Clock
  import opened Contracts
  import opened Batches

  const DEFAULT_BATCH: nat := 100
  const DEFAULT_BACKOFF: Time := 30 * SECOND
  const UNSUPPORTED_ACTION := "unsupported repo watch action"

  /** A row of `scanner_watchlist`. */
  datatype Watched = Watched(lastSeenTag: string, nextScanAt: Time)

  /** A row of `scanner_releases`; also the payload of a ReleaseDetected event. */
  datatype Release = Release(repo: Repo, tag: string)

  /** What a scan reads of a claimed row. */
  datatype Claimed = Claimed(repo: Repo, lastSeenTag: string)

  /** The scanner's tables and the two kinds of event in its outbox, oldest first. */
  datatype Tables = Tables(
    watchlist: map<Repo, Watched>,
    releases: set<Release>,
    detected: seq<Release>,
    acks: seq<WatchAck>)

  // ---- Watch commands ----

  function Started(watchlist: map<Repo, Watched>, repo: Repo, now: Time): map<Repo, Watched> {
    if repo in watchlist && watchlist[repo].nextScanAt <= now then watchlist
    else watchlist[repo := Watched(if repo in watchlist then watchlist[repo].lastSeenTag else "", now)]
  }

  function Stopped(watchlist: map<Repo, Watched>, repo: Repo): map<Repo, Watched> {
    map r | r in watchlist && r != repo :: watchlist[r]
  }

  /** The ack of a command that failed for the given cause, or succeeded. */
  function AckFor(command: WatchCommand, cause: Option<string>): (ack: WatchAck)
    ensures ack.sagaId == command.sagaId && ack.action == command.action && ack.repo == command.repo
    ensures ack.correlationId == command.correlationId
    ensures ack.eventType == RepoWatchStarted <==> cause.None? && command.action == StartWatch
    ensures ack.eventType == RepoWatchStopped <==> cause.None? && command.action == StopWatch
    ensures ack.eventType == RepoWatchFailed <==> cause.Some? || command.action.OtherAction?
    ensures cause.Some? ==> ack.error == cause.value
    ensures ack.eventType != RepoWatchFailed ==> ack.error == ""
  {
    var outcome :=
      if cause.Some? then (RepoWatchFailed, cause.value)
      else match command.action
           case StartWatch => (RepoWatchStarted, "")
           case StopWatch => (RepoWatchStopped, "")
           case OtherAction(_) => (RepoWatchFailed, UNSUPPORTED_ACTION);
    WatchAck(outcome.0, command.correlationId, command.sagaId, command.action, command.repo, outcome.1)
  }

  /** The validation of HandleWatchlistCommand; every rejection is non-retryable. */
  predicate AcceptsCommand(command: WatchCommand) {
    && (match command.eventType
        case StartWatchingRepo => command.action == StartWatch
        case StopWatchingRepo => command.action == StopWatch
        case _ => false)
    && command.sagaId != NotUuid("")
    && command.repo != ""
  }

  /** One transaction: the watchlist change and its ack, or only the ack of the failure. */
  function AfterCommand(t: Tables, command: WatchCommand, failure: Option<string>, now: Time): Tables {
    var cause := if command.action.OtherAction? then Some(UNSUPPORTED_ACTION) else failure;
    t.(watchlist :=
         if cause.Some? then t.watchlist
         else if command.action == StartWatch then Started(t.watchlist, command.repo, now)
         else Stopped(t.watchlist, command.repo),
       acks := t.acks + [AckFor(command, cause)])
  }

  // ---- Scanning ----

  /** The database's order of names, as the rank of each; only equal names need have equal ranks. */
  type Collation = Repo -> int

  /** The claim's WHERE and ORDER BY. */
  function DueKeys(watchlist: map<Repo, Watched>, now: Time, collation: Collation): map<Repo, SortKey> {
    map r | r in watchlist && watchlist[r].nextScanAt <= now :: SortKey(watchlist[r].nextScanAt, collation(r), 0)
  }

  /**
   The claim, on the columns: a repo whose next scan is not in the future is claimed, or the batch is full of such
   repos, none of them with a later next scan.
   */
  lemma ClaimTakesDue(
    watchlist: map<Repo, Watched>, now: Time, collation: Collation, limit: nat, batch: seq<Repo>, repo: Repo)
    requires IsBatch(DueKeys(watchlist, now, collation), limit, batch) && repo in watchlist
    ensures repo in batch ==> watchlist[repo].nextScanAt <= now
    ensures watchlist[repo].nextScanAt <= now && repo !in batch ==>
              && |batch| == limit
              && forall r | r in batch ::
                   && r in watchlist
                   && (|| watchlist[r].nextScanAt < watchlist[repo].nextScanAt
                       || (watchlist[r].nextScanAt == watchlist[repo].nextScanAt && collation(r) <= collation(repo)))
  {
    var keys := DueKeys(watchlist, now, collation);
    if repo in keys && repo !in batch {
      TakenOrFull(keys, limit, batch, repo);
    }
  }

  /** The repos whose next scan is not in the future. */
  function DueRepos(watchlist: map<Repo, Watched>, now: Time): set<Repo> {
    set r | r in watchlist && watchlist[r].nextScanAt <= now
  }

  /** A tick whose batch covers the due repos claims exactly those. */
  lemma LargeBatchTakesAll(watchlist: map<Repo, Watched>, now: Time, collation: Collation, limit: nat, batch: seq<Repo>)
    requires IsBatch(DueKeys(watchlist, now, collation), limit, batch) && |DueRepos(watchlist, now)| <= limit
    ensures forall r :: r in batch <==> r in watchlist && watchlist[r].nextScanAt <= now
  {
    var keys := DueKeys(watchlist, now, collation);
    assert keys.Keys == DueRepos(watchlist, now);
    DistinctCardinality(batch);
    SubsetCardinality(Elements(batch), keys.Keys);
    assert Elements(batch) == keys.Keys;
    forall r ensures r in batch <==> r in watchlist && watchlist[r].nextScanAt <= now {
      assert r in batch <==> r in Elements(batch);
    }
  }

  function AfterClaim(t: Tables, batch: seq<Repo>, now: Time, backoff: Time): Tables {
    t.(watchlist := map r | r in t.watchlist ::
         if r in batch then t.watchlist[r].(nextScanAt := now + backoff) else t.watchlist[r])
  }

  function Snapshot(watchlist: map<Repo, Watched>, batch: seq<Repo>): (claimed: seq<Claimed>)
    requires forall r | r in batch :: r in watchlist
    ensures |claimed| == |batch|
    ensures forall i | 0 <= i < |batch| :: claimed[i] == Claimed(batch[i], watchlist[batch[i]].lastSeenTag)
  {
    seq(|batch|, i requires 0 <= i < |batch| => Claimed(batch[i], watchlist[batch[i]].lastSeenTag))
  }

  /** The release transaction: a known release changes nothing, a new one is recorded and announced once. */
  function AfterDetect(t: Tables, found: Release): Tables {
    if found in t.releases then t
    else
      t.(releases := t.releases + {found},
         watchlist := if found.repo in t.watchlist
                      then t.watchlist[found.repo := t.watchlist[found.repo].(lastSeenTag := found.tag)]
                      else t.watchlist,
         detected := t.detected + [found])
  }

  /** `answer` is the tag GitHub gave, or None for an error; `commits` is the fate of the transaction. */
  function AfterScan(t: Tables, claimed: Claimed, answer: Option<string>, commits: bool): Tables {
    if answer.None? || answer.value == "" || answer.value == claimed.lastSeenTag || !commits then t
    else AfterDetect(t, Release(claimed.repo, answer.value))
  }

  function AfterScans(
    t: Tables, claimed: seq<Claimed>, answers: Repo -> Option<string>, commits: Repo -> bool): Tables
  {
    if claimed == [] then t
    else
      var last := claimed[|claimed| - 1];
      AfterScan(AfterScans(t, claimed[..|claimed| - 1], answers, commits), last, answers(last.repo), commits(last.repo))
  }

  predicate FindsNewTag(answer: Option<string>, lastSeenTag: string) {
    answer.Some? && answer.value != "" && answer.value != lastSeenTag
  }

  /** A claimed repo for which GitHub gives a new tag has its release recorded by the scans of the tick. */
  lemma {:induction false} ScansRecord(
    t: Tables, claimed: seq<Claimed>, answers: Repo -> Option<string>, commits: Repo -> bool, i: nat)
    requires i < |claimed| && commits(claimed[i].repo) && FindsNewTag(answers(claimed[i].repo), claimed[i].lastSeenTag)
    ensures Release(claimed[i].repo, answers(claimed[i].repo).value)
            in AfterScans(t, claimed, answers, commits).releases
  {
    if i < |claimed| - 1 {
      ScansRecord(t, claimed[..|claimed| - 1], answers, commits, i);
    }
  }

  /** The scanner's database and the service methods that work on it. */
  class Service {
    var watchlist: map<Repo, Watched>
    var releases: set<Release>
    var detected: seq<Release>
    var acks: seq<WatchAck>
    const batchSize: nat
    const scanBackoff: Time
    const collation: Collation

    ghost function Contents(): Tables
      reads this
    {
      Tables(watchlist, releases, detected, acks)
    }

    constructor (batchSize: int, scanBackoff: int, collation: Collation)
      ensures Contents() == Tables(map[], {}, [], []) && this.collation == collation
      ensures this.batchSize == (if batchSize <= 0 then 100 else batchSize)
      ensures this.scanBackoff == (if scanBackoff <= 0 then 30_000_000 else scanBackoff)
    {
      this.batchSize := if batchSize <= 0 then DEFAULT_BATCH else batchSize;
      this.scanBackoff := if scanBackoff <= 0 then DEFAULT_BACKOFF else scanBackoff;
      this.collation := collation;
      watchlist, releases, detected, acks := map[], {}, [], [];
    }

    method ClaimDue(limit: nat, nextScanIn: Time, now: Time, commits: bool)
      returns (claimed: Option<seq<Claimed>>, ghost batch: seq<Repo>)
      modifies this`watchlist
      ensures IsBatch(DueKeys(old(watchlist), now, collation), limit, batch)
      ensures |DueRepos(old(watchlist), now)| <= limit ==>
                forall r :: r in batch <==> r in old(watchlist) && old(watchlist)[r].nextScanAt <= now
      ensures forall r | r in batch :: r in old(watchlist)
      ensures claimed == if commits then Some(Snapshot(old(watchlist), batch)) else None
      ensures Contents() == if commits then AfterClaim(old(Contents()), batch, now, nextScanIn) else old(Contents())
      ensures watchlist.Keys == old(watchlist).Keys
      ensures forall r | r in watchlist ::
                watchlist[r] == if commits && r in batch then Watched(old(watchlist)[r].lastSeenTag, now + nextScanIn)
                                else old(watchlist)[r]
    {
      var repos := Select(DueKeys(watchlist, now, collation), limit);
      batch := repos;
      if |DueRepos(watchlist, now)| <= limit {
        LargeBatchTakesAll(watchlist, now, collation, limit, repos);
      }
      var rows := Snapshot(watchlist, repos);
      if !commits {
        return None, batch;
      }
      Reserve(repos, now + nextScanIn);
      return Some(rows), batch;
    }

    /** The claim's update loop. */
    method Reserve(repos: seq<Repo>, until: Time)
      requires forall r | r in repos :: r in watchlist
      modifies this`watchlist
      ensures watchlist == map r | r in old(watchlist) ::
                  if r in repos then old(watchlist)[r].(nextScanAt := until) else old(watchlist)[r]
    {
      for i := 0 to |repos|
        invariant watchlist.Keys == old(watchlist).Keys
        invariant forall r | r in watchlist ::
            watchlist[r] == if r in repos[..i] then old(watchlist)[r].(nextScanAt := until) else old(watchlist)[r]
      {
        assert repos[..i + 1] == repos[..i] + [repos[i]];
        watchlist := watchlist[repos[i] := watchlist[repos[i]].(nextScanAt := until)];
      }
      assert repos[..|repos|] == repos;
    }

    /**
     `failure` is the error of the watchlist statement. Returns false for a non-retryable rejection
     and for a transaction that does not commit.
     */
    method HandleWatchlistCommand(command: WatchCommand, failure: Option<string>, now: Time, commits: bool)
      returns (ok: bool, nonRetryable: bool)
      modifies this`watchlist, this`acks
      ensures nonRetryable == !AcceptsCommand(command)
      ensures nonRetryable <==>
                || (command.eventType != StartWatchingRepo && command.eventType != StopWatchingRepo)
                || (command.eventType == StartWatchingRepo && command.action != StartWatch)
                || (command.eventType == StopWatchingRepo && command.action != StopWatch)
                || command.sagaId == NotUuid("") || command.repo == ""
      ensures ok == (AcceptsCommand(command) && commits)
      ensures Contents() == if ok then AfterCommand(old(Contents()), command, failure, now) else old(Contents())
      ensures ok && failure.None? ==>
                && (command.repo in watchlist <==> command.eventType == StartWatchingRepo)
                && (forall r | r != command.repo ::
                      && (r in watchlist <==> r in old(watchlist))
                      && (r in watchlist ==> watchlist[r] == old(watchlist)[r]))
      ensures !ok || failure.Some? ==> watchlist == old(watchlist)
      ensures !ok ==> acks == old(acks)
      ensures ok ==>
                && |acks| == |old(acks)| + 1 && acks[..|old(acks)|] == old(acks)
                && acks[|old(acks)|]
                   == WatchAck(if failure.Some? then RepoWatchFailed
                               else if command.action == StartWatch then RepoWatchStarted else RepoWatchStopped,
                               command.correlationId, command.sagaId, command.action, command.repo,
                               if failure.Some? then failure.value else "")
    {
      match command.eventType {
        case StartWatchingRepo =>
          if command.action != StartWatch {
            return false, true;
          }
        case StopWatchingRepo =>
          if command.action != StopWatch {
            return false, true;
          }
        case _ =>
          return false, true;
      }
      if command.sagaId == NotUuid("") || command.repo == "" {
        return false, true;
      }
      ok := ApplyWatchCommand(command, failure, now, commits);
      return ok, false;
    }

    method ApplyWatchCommand(command: WatchCommand, failure: Option<string>, now: Time, commits: bool)
      returns (ok: bool)
      modifies this`watchlist, this`acks
      ensures ok == commits
      ensures Contents() == if commits then AfterCommand(old(Contents()), command, failure, now) else old(Contents())
    {
      if !commits {
        return false;
      }
      var operationError := failure;
      match command.action {
        case StartWatch =>
          if failure.None? {
            StartWatching(command.repo, now);
          }
        case StopWatch =>
          if failure.None? {
            watchlist := watchlist - {command.repo};
          }
        case OtherAction(_) =>
          operationError := Some(UNSUPPORTED_ACTION);
      }
      acks := acks + [AckFor(command, operationError)];
      return true;
    }

    /** INSERT ... ON CONFLICT (repo) DO UPDATE SET next_scan_at = LEAST(next_scan_at, now()). */
    method StartWatching(repo: Repo, now: Time)
      modifies this`watchlist
      ensures watchlist == Started(old(watchlist), repo, now)
      ensures repo in watchlist && watchlist.Keys == old(watchlist).Keys + {repo}
      ensures repo !in old(watchlist) ==> watchlist[repo] == Watched("", now)
      ensures repo in old(watchlist) ==>
                && watchlist[repo].lastSeenTag == old(watchlist)[repo].lastSeenTag
                && watchlist[repo].nextScanAt
                   == if old(watchlist)[repo].nextScanAt < now then old(watchlist)[repo].nextScanAt else now
      ensures forall r | r in old(watchlist) && r != repo :: watchlist[r] == old(watchlist)[r]
    {
      if repo !in watchlist {
        watchlist := watchlist[repo := Watched("", now)];
      } else if now < watchlist[repo].nextScanAt {
        watchlist := watchlist[repo := watchlist[repo].(nextScanAt := now)];
      }
    }

    /** Returns None when the transaction does not commit, otherwise whether the release is new. */
    method MarkReleaseDetected(repo: Repo, tag: string, commits: bool) returns (published: Option<bool>)
      modifies this`watchlist, this`releases, this`detected
      ensures published == if commits then Some(Release(repo, tag) !in old(releases)) else None
      ensures Contents() == if commits then AfterDetect(old(Contents()), Release(repo, tag)) else old(Contents())
      ensures published == Some(true) ==>
                && releases == old(releases) + {Release(repo, tag)} && detected == old(detected) + [Release(repo, tag)]
                && watchlist == if repo in old(watchlist)
                                then old(watchlist)[repo := Watched(tag, old(watchlist)[repo].nextScanAt)]
                                else old(watchlist)
      ensures published != Some(true) ==>
                releases == old(releases) && detected == old(detected) && watchlist == old(watchlist)
    {
      if !commits {
        return None;
      }
      var found := Release(repo, tag);
      if found in releases {
        return Some(false);
      }
      releases := releases + {found};
      if repo in watchlist {
        watchlist := watchlist[repo := watchlist[repo].(lastSeenTag := tag)];
      }
      detected := detected + [found];
      return Some(true);
    }

    method ScanRepo(claimed: Claimed, answer: Option<string>, commits: bool) returns (ok: bool)
      modifies this`watchlist, this`releases, this`detected
      ensures Contents() == AfterScan(old(Contents()), claimed, answer, commits)
      ensures var found := answer.Some? && answer.value != "" && answer.value != claimed.lastSeenTag && commits;
              && (found ==> releases == old(releases) + {Release(claimed.repo, answer.value)})
              && (!found ==> Contents() == old(Contents()))
      ensures ok == (answer.Some? && (answer.value == "" || answer.value == claimed.lastSeenTag || commits))
    {
      if answer.None? {
        return false;
      }
      if answer.value == "" || answer.value == claimed.lastSeenTag {
        return true;
      }
      var published := MarkReleaseDetected(claimed.repo, answer.value, commits);
      return published.Some?;
    }

    /** One tick: claim a batch, then scan each claimed repo; the failure of one does not stop the others. */
    method ScanOnce(answers: Repo -> Option<string>, commits: Repo -> bool, claimCommits: bool, now: Time)
      returns (ok: bool, ghost batch: seq<Repo>)
      modifies this`watchlist, this`releases, this`detected
      ensures IsBatch(DueKeys(old(watchlist), now, collation), batchSize, batch)
      ensures |DueRepos(old(watchlist), now)| <= batchSize ==>
                forall r :: r in batch <==> r in old(watchlist) && old(watchlist)[r].nextScanAt <= now
      ensures forall r | r in batch ::
                claimCommits && commits(r) && FindsNewTag(answers(r), old(watchlist)[r].lastSeenTag) ==>
                Release(r, answers(r).value) in releases
      ensures forall r | r in batch :: r in old(watchlist)
      ensures ok == claimCommits
      ensures Contents() ==
              if claimCommits then
                AfterScans(AfterClaim(old(Contents()), batch, now, scanBackoff),
                           Snapshot(old(watchlist), batch), answers, commits)
              else old(Contents())
    {
      var result;
      result, batch := ClaimDue(batchSize, scanBackoff, now, claimCommits);
      if result.None? {
        return false, batch;
      }
      var claimed := result.value;
      ghost var start := Contents();
      for i := 0 to |claimed|
        invariant Contents() == AfterScans(start, claimed[..i], answers, commits)
      {
        assert claimed[..i + 1][..i] == claimed[..i];
        var _ := ScanRepo(claimed[i], answers(claimed[i].repo), commits(claimed[i].repo));
      }
      assert claimed[..|claimed|] == claimed;
      forall i | 0 <= i < |claimed| && commits(batch[i]) && FindsNewTag(answers(batch[i]), claimed[i].lastSeenTag)
        ensures Release(batch[i], answers(batch[i]).value) in releases
      {
        ScansRecord(start, claimed, answers, commits, i);
      }
      return true, batch;
    }
  }
}
