/** No due repo starves in the ordered, limited claims of the scanners. */
module ScannerFairness {

  import opened Wrappers
  import opened Clock
  import opened Contracts
  import opened Batches
  import opened Scanner
  import opened ScannerRuns

  /** The repo's next scan is past. */
  predicate IsDue(w: World, repo: Repo) {
    repo in w.tables.watchlist && w.tables.watchlist[repo].nextScanAt < w.now
  }

  /** Every watched repo, with its place in the order of the claims. */
  function Places(w: World): map<Repo, SortKey> {
    map r | r in w.tables.watchlist :: SortKey(w.tables.watchlist[r].nextScanAt, w.collation(r), 0)
  }

  /** How many watched repos the claim does not put after the given one, itself included. */
  function Position(w: World, repo: Repo): nat
    requires repo in w.tables.watchlist
  {
    |NotAfter(Places(w), repo)|
  }

  /** A step that leaves a due repo watched and its next scan where it is. */
  ghost predicate PassesOver(w: World, s: Step, repo: Repo)
    requires Enabled(w, s)
  {
    && IsDue(w, repo)
    && repo in Next(w, s).tables.watchlist
    && Next(w, s).tables.watchlist[repo].nextScanAt == w.tables.watchlist[repo].nextScanAt
  }

  /** A repo that a step adds, or whose next scan it moves, is next scanned now or later. */
  lemma MovedComeLater(w: World, s: Step, r: Repo)
    requires Enabled(w, s) && r in Next(w, s).tables.watchlist
    ensures || (r in w.tables.watchlist
                && Next(w, s).tables.watchlist[r].nextScanAt == w.tables.watchlist[r].nextScanAt)
            || Next(w, s).tables.watchlist[r].nextScanAt >= w.now
  {
  }

  /** No command, scan, claim or tick puts another repo ahead of a due one. */
  lemma NothingOvertakes(w: World, s: Step, repo: Repo)
    requires Enabled(w, s) && PassesOver(w, s, repo)
    ensures IsDue(Next(w, s), repo) && Position(Next(w, s), repo) <= Position(w, repo)
  {
    var was, after := Places(w), Places(Next(w, s));
    assert Next(w, s).collation == w.collation;
    forall r | r in NotAfter(after, repo) ensures r in was && was[r] == after[r] {
      MovedComeLater(w, s, r);
    }
    FewerNotAfter(was, after, repo);
  }

  lemma ClaimMoves(w: World, s: Step, repo: Repo)
    requires Enabled(w, s) && s.Claim? && PassesOver(w, s, repo)
    ensures repo !in s.batch
    ensures NotAfter(Places(Next(w, s)), repo) == NotAfter(Places(w) - Elements(s.batch), repo)
  {
    assert forall r | r in s.batch :: r in DueKeys(w.tables.watchlist, w.now, w.collation);
  }

  /** A claim that passes a due repo over brings it forward by exactly the limit. */
  lemma ClaimBringsForward(w: World, s: Step, repo: Repo)
    requires Enabled(w, s) && s.Claim? && PassesOver(w, s, repo)
    ensures Position(Next(w, s), repo) == Position(w, repo) - s.limit
  {
    ClaimMoves(w, s, repo);
    BatchBringsForward(Places(w), DueKeys(w.tables.watchlist, w.now, w.collation), s.limit, s.batch, repo);
  }

  /** How many repos the claims of a run may take. */
  function Capacity(steps: seq<Step>): nat {
    if steps == [] then 0 else (if steps[0].Claim? then steps[0].limit else 0) + Capacity(steps[1..])
  }

  /** Some step of the run claims the repo, moves its next scan otherwise, or gives the repo up. */
  ghost predicate HandledWithin(w: World, steps: seq<Step>, repo: Repo)
    requires repo in w.tables.watchlist && Possible(w, steps)
    decreases |steps|
  {
    && steps != []
    && var watchlist := Next(w, steps[0]).tables.watchlist;
       || (steps[0].Claim? && repo in steps[0].batch)
       || repo !in watchlist
       || watchlist[repo].nextScanAt != w.tables.watchlist[repo].nextScanAt
       || HandledWithin(Next(w, steps[0]), steps[1..], repo)
  }

  /**
   A due repo is claimed within as many claims as it takes to cover the repos not after it, unless a command moves it.
   */
  lemma {:induction false} NoRepoStarves(w: World, steps: seq<Step>, repo: Repo)
    requires Possible(w, steps) && IsDue(w, repo) && Capacity(steps) >= Position(w, repo)
    ensures HandledWithin(w, steps, repo)
    decreases |steps|
  {
    assert repo in NotAfter(Places(w), repo);
    if steps != [] && PassesOver(w, steps[0], repo) {
      NothingOvertakes(w, steps[0], repo);
      if steps[0].Claim? {
        ClaimBringsForward(w, steps[0], repo);
      }
      NoRepoStarves(Next(w, steps[0]), steps[1..], repo);
    }
  }

  /** A repo just started is claimed by the next tick, if its batch covers the due repos. */
  lemma StartedIsClaimed(w: World, command: WatchCommand, later: Time, s: Step)
    requires command.action == StartWatch && command.eventType == StartWatchingRepo && AcceptsCommand(command)
    requires w.now <= later && s.Claim?
    ensures Enabled(w, Apply(command, None)) && Enabled(Next(w, Apply(command, None)), Tick(later))
    ensures var after := Next(Next(w, Apply(command, None)), Tick(later));
            Enabled(after, s) && |DueRepos(after.tables.watchlist, later)| <= s.limit ==> command.repo in s.batch
  {
    var after := Next(Next(w, Apply(command, None)), Tick(later));
    if Enabled(after, s) && |DueRepos(after.tables.watchlist, later)| <= s.limit {
      LargeBatchTakesAll(after.tables.watchlist, later, w.collation, s.limit, s.batch);
    }
  }
}
